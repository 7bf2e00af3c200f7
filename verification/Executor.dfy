/**
 The executor of one host: service workers, deployment workers, cancel handlers
 and the durable host lock they share.  Every step is one store transaction, one
 read, or the systemd call itself, and the process may crash between any two.
 */
module Executor {
  import opened Wrappers
  import opened Jobs
  import opened StoreModel
  import opened StoreProofs

  datatype CallOutcome = Accepted | Rejected | AcknowledgementLost

  /** Where a service worker stands; a record is the copy it last read or committed. */
  datatype Pc =
    | Starting
    | Queueing
    | QueueCopy(job: Job)
    | Acquired
    | Holding(job: Job)
    | Launching(job: Job)
    | Calling(job: Job)
    | Called(job: Job, outcome: CallOutcome)
    | Watching(job: Job)
    | Recovering(job: Job)
    | Seen(job: Job, effect: bool)
    | GivingUp(job: Job)
    | Releasing
    | Erring
    | ErringCopy(job: Job)

  /** What the clock, systemd or an I/O error decides for the next worker step. */
  datatype Choice = Proceed | DeadlinePassed | StaleBaseline | Fault | CallReturns(outcome: CallOutcome) | Observed(effect: bool)

  datatype CancelTask = CancelCommit(id: JobId, job: Job) | CancelRelease(id: JobId)

  /** History of one service job: what the environment answered, and when its worker was hit. */
  datatype Past = Past(
    answered: Option<CallOutcome>,   // by the systemd call
    observed: Option<bool>,          // by the last observation of the unit: whether the effect was there
    heard: Choice,                   // at the worker's last step
    parted: Option<Choice>,          // when a commit took the job out of the queue, or ended it before the call
    invalid: bool,                   // the job was refused on arrival
    disturbed: bool)                 // a fault or a crash hit its worker

  const UNTOUCHED: Past := Past(None, None, Proceed, None, false, false)

  datatype Host = Host(
    name: string,
    db: Db,
    workers: map<JobId, Pc>,
    holders: set<JobId>,        // deployment workers that acquired the lock
    cancels: set<CancelTask>,
    issued: multiset<JobId>,    // history: systemd calls made
    early: set<JobId>,          // history: cancels committed while Queued or Dispatching
    pasts: map<JobId, Past>)    // history: what happened to each job

  datatype Step =
    | Accept(id: JobId, request: NewJob)
    | RejectInvalid(id: JobId, expected: nat)
    | Spawn(id: JobId)
    | Work(id: JobId, choice: Choice)
    | RequestCancelOf(id: JobId, expected: nat, reason: string)
    | FinishCancel(task: CancelTask)
    | CommandAcquire(id: JobId)
    | CommandDispatch(id: JobId, expected: nat)
    | CommandMove(id: JobId, expected: nat, next: JobState, result: Option<Evidence>)
    | ReleaseTerminal(id: JobId)
    | Crash

  // ---------------------------------------------------------------- steps

  function HostLock(s: Host): (r: Resource) { Resource("systemd_manager", s.name) }

  predicate BeforeCall(state: JobState) { state == Queued || state == Dispatching }

  predicate Serialized(op: Operation) { IsServiceAction(op) || SerializesHostChanges(op) }

  predicate HasProgress(job: Job) { job.result.Some? && job.result.value.Progress? }

  function PastOf(s: Host, id: JobId): (p: Past) { if id in s.pasts then s.pasts[id] else UNTOUCHED }

  function SetPast(s: Host, id: JobId, past: Past): (r: Host) { s.(pasts := s.pasts[id := past]) }

  function SetPc(s: Host, id: JobId, pc: Option<Pc>): (r: Host) {
    s.(workers := if pc.Some? then s.workers[id := pc.value] else s.workers - {id})
  }

  /** The next position after a commit, with the record it returned. */
  datatype After = ToLaunching | ToCalling | ToWatching | ToGivingUp | ToReleasing | ToErringCopy | ToStop

  function AfterPc(after: After, job: Job): (pc: Option<Pc>) {
    match after
    case ToLaunching => Some(Launching(job))
    case ToCalling => Some(Calling(job))
    case ToWatching => Some(Watching(job))
    case ToGivingUp => Some(GivingUp(job))
    case ToReleasing => Some(Releasing)
    case ToErringCopy => Some(ErringCopy(job))
    case ToStop => None
  }

  /** The next thing a service worker does; a commit that loses its race goes to `lost`. */
  datatype Action =
    | Go(pc: Pc)
    | Read
    | Acquire
    | CommitTo(job: Job, next: JobState, result: Option<Evidence>, after: After, lost: Pc)
    | CallSystemd(job: Job, outcome: CallOutcome)
    | Look(job: Job, effect: bool)
    | Free
    | Quit
    | Wait

  function Decide(pc: Pc, choice: Choice): (a: Action) {
    if choice == Fault then Go(if pc.ErringCopy? then Starting else Erring)
    else
      match pc
      case Starting => Acquire
      case Queueing => Read
      case QueueCopy(job) =>
        if IsTerminal(job.state) then Quit
        else if choice == DeadlinePassed && BeforeCall(job.state) then CommitTo(job, TimedOut, Some(Refused), ToStop, Erring)
        else if job.cancelRequested then CommitTo(job, Cancelled, Some(NotStarted), ToStop, Erring)
        else Go(Starting)
      case Acquired => Read
      case Holding(job) => DecideHolding(job, choice)
      case Launching(job) => CommitTo(job, Running, Some(Progress(false)), ToCalling, Erring)
      case Calling(job) => if choice.CallReturns? then CallSystemd(job, choice.outcome) else Wait
      case Called(job, outcome) =>
        (match outcome
         case Rejected => CommitTo(job, Failed, Some(Refused), ToReleasing, Erring)
         case AcknowledgementLost => CommitTo(job, Reconciling, Some(Progress(false)), ToGivingUp, Erring)
         case Accepted => CommitTo(job, Reconciling, Some(Progress(true)), ToWatching, Erring))
      case Watching(job) =>
        if choice.Observed? && job.result == Some(Progress(true)) then Look(job, choice.effect) else Go(GivingUp(job))
      case Recovering(job) =>
        if !HasProgress(job) then Go(Erring) else if choice.Observed? then Look(job, choice.effect) else Wait
      case Seen(job, effect) =>
        if effect then CommitTo(job, Succeeded, Some(Finished(true)), ToReleasing, Erring)
        else if job.state == Reconciling then CommitTo(job, Failed, Some(Finished(false)), ToReleasing, Erring)
        else CommitTo(job, Reconciling, job.result, ToGivingUp, Erring)
      case GivingUp(job) => CommitTo(job, OutcomeUnknown, Some(EffectUnknown), ToReleasing, Erring)
      case Releasing => Free
      case Erring => Read
      case ErringCopy(job) =>
        if IsTerminal(job.state) then Go(Releasing)
        else if job.state == Running then CommitTo(job, Reconciling, job.result, ToErringCopy, Starting)
        else if job.state == Reconciling then CommitTo(job, OutcomeUnknown, Some(EffectUnknown), ToReleasing, Starting)
        else CommitTo(job, Failed, Some(NotStarted), ToReleasing, Starting)
  }

  /** The body of `run_service_job` once the lock is held and the record was read again. */
  function DecideHolding(job: Job, choice: Choice): (a: Action) {
    if IsTerminal(job.state) then Go(Releasing)
    else if choice == DeadlinePassed && BeforeCall(job.state) then CommitTo(job, TimedOut, Some(Refused), ToReleasing, Erring)
    else if job.cancelRequested && BeforeCall(job.state)
    then CommitTo(job, Cancelled, Some(NotStarted), ToReleasing, Erring)
    else
      match job.state
      case Queued =>
        if choice == StaleBaseline then CommitTo(job, Failed, Some(Refused), ToReleasing, Erring)
        else CommitTo(job, Dispatching, Some(Progress(false)), ToLaunching, Erring)
      case Dispatching => Go(if HasProgress(job) then Launching(job) else Erring)
      case Running => Go(Recovering(job))
      case _ => Go(if HasProgress(job) then Watching(job) else Erring)
  }

  function CopyPc(pc: Pc, job: Job): (r: Pc) {
    if pc.Queueing? then QueueCopy(job) else if pc.Acquired? then Holding(job) else ErringCopy(job)
  }

  function AcquireNext(s: Host, id: JobId): (r: Host) {
    var a := TryAcquire(s.db, HostLock(s), id);
    if a.Err? then SetPc(s, id, Some(Erring))
    else SetPc(s.(db := a.value.db), id, Some(if a.value.acquired then Acquired else Queueing))
  }

  function CommitNext(s: Host, id: JobId, a: Action): (r: Host)
    requires a.CommitTo? && id in s.db.jobs
  {
    var t := TransitionJob(s.db, id, a.job.revision, a.next, a.result);
    if t.Err? then SetPc(s, id, Some(a.lost))
    else SetPc(SetPast(s.(db := t.value), id, Parted(s.db.jobs[id], PastOf(s, id), a)), id, AfterPc(a.after, t.value.jobs[id]))
  }

  /** A commit that leaves the queue, or ends the job before the call, is remembered with the answer behind it. */
  function Parted(job: Job, past: Past, a: Action): (r: Past)
    requires a.CommitTo?
  {
    if BeforeCall(job.state) && a.next != Running then past.(parted := Some(past.heard)) else past
  }

  function Noted(s: Host, id: JobId, choice: Choice): (r: Host) {
    var past := PastOf(s, id);
    SetPast(s, id, past.(heard := choice, disturbed := past.disturbed || choice == Fault))
  }

  function CallNext(s: Host, id: JobId, job: Job, outcome: CallOutcome): (r: Host) {
    var called := SetPast(s, id, PastOf(s, id).(answered := Some(outcome)));
    SetPc(called.(issued := s.issued + multiset{id}), id, Some(Called(job, outcome)))
  }

  function Perform(s: Host, id: JobId, pc: Pc, a: Action): (r: Host)
    requires id in s.db.jobs
  {
    match a
    case Go(next) => SetPc(s, id, Some(next))
    case Read => SetPc(s, id, Some(CopyPc(pc, s.db.jobs[id])))
    case Acquire => AcquireNext(s, id)
    case CommitTo(_, _, _, _, _) => CommitNext(s, id, a)
    case CallSystemd(job, outcome) => CallNext(s, id, job, outcome)
    case Look(job, effect) => SetPc(SetPast(s, id, PastOf(s, id).(observed := Some(effect))), id, Some(Seen(job, effect)))
    case Free => SetPc(s.(db := Release(s.db, HostLock(s), id)), id, None)
    case Quit => SetPc(s, id, None)
    case Wait => s
  }

  function CancelNext(s: Host, id: JobId, expected: nat, reason: string): (r: Host) {
    var t := RequestCancel(s.db, id, expected, reason);
    if t.Err? then s
    else
      var job := t.value.jobs[id];
      if IsServiceAction(job.operation) && !BeforeCall(job.state) then s.(db := t.value)
      else s.(db := t.value, cancels := s.cancels + {CancelCommit(id, job)},
              early := if BeforeCall(job.state) then s.early + {id} else s.early)
  }

  function FinishCancelNext(s: Host, task: CancelTask): (r: Host) {
    var cancels := s.cancels - {task};
    match task
    case CancelCommit(id, job) =>
      var t := TransitionJob(s.db, id, job.revision, Cancelled, Some(NotStarted));
      if t.Err? then s.(cancels := cancels) else s.(db := t.value, cancels := cancels + {CancelRelease(id)})
    case CancelRelease(id) => s.(db := Release(s.db, HostLock(s), id), cancels := cancels)
  }

  function CommandAcquireNext(s: Host, id: JobId): (r: Host) {
    var a := TryAcquire(s.db, HostLock(s), id);
    if a.Ok? then s.(db := a.value.db, holders := if a.value.acquired then s.holders + {id} else s.holders) else s
  }

  function MoveNext(s: Host, id: JobId, expected: nat, next: JobState, result: Option<Evidence>): (r: Host) {
    s.(db := AfterTransition(s.db, id, expected, next, result))
  }

  function RejectNext(s: Host, id: JobId, expected: nat): (r: Host) {
    var moved := MoveNext(s, id, expected, Failed, Some(Refused));
    if moved == s then s else SetPast(moved, id, PastOf(s, id).(invalid := true))
  }

  function Disturb(s: Host): (pasts: map<JobId, Past>) {
    map id | id in s.pasts.Keys + s.workers.Keys ::
      if id in s.workers then PastOf(s, id).(disturbed := true) else s.pasts[id]
  }

  function Next(s: Host, step: Step): (r: Host) {
    match step
    case Accept(id, request) => if request.host == s.name then s.(db := AfterAccept(s.db, id, request)) else s
    case RejectInvalid(id, expected) =>
      if id in s.db.jobs && s.db.jobs[id].state == Queued then RejectNext(s, id, expected) else s
    case Spawn(id) =>
      if id in s.db.jobs && IsServiceAction(s.db.jobs[id].operation) && id !in s.workers
      then SetPc(s, id, Some(Starting)) else s
    case Work(id, choice) =>
      if id in s.workers && id in s.db.jobs
      then Perform(Noted(s, id, choice), id, s.workers[id], Decide(s.workers[id], choice)) else s
    case RequestCancelOf(id, expected, reason) => CancelNext(s, id, expected, reason)
    case FinishCancel(task) => if task in s.cancels then FinishCancelNext(s, task) else s
    case CommandAcquire(id) =>
      if id in s.db.jobs && SerializesHostChanges(s.db.jobs[id].operation) then CommandAcquireNext(s, id) else s
    case CommandDispatch(id, expected) => if id in s.holders then MoveNext(s, id, expected, Dispatching, None) else s
    case CommandMove(id, expected, next, result) =>
      if && id in s.db.jobs && !IsServiceAction(s.db.jobs[id].operation)
         && (next == Dispatching ==> !SerializesHostChanges(s.db.jobs[id].operation))
      then MoveNext(s, id, expected, next, result) else s
    case ReleaseTerminal(id) =>
      if id in s.db.jobs && IsTerminal(s.db.jobs[id].state) then s.(db := Release(s.db, HostLock(s), id)) else s
    case Crash => s.(workers := map[], holders := {}, cancels := {}, pasts := Disturb(s))
  }

  function RunSteps(s: Host, steps: seq<Step>): (r: Host)
    decreases |steps|
  {
    if steps == [] then s else RunSteps(Next(s, steps[0]), steps[1..])
  }

  predicate Initial(s: Host) {
    s.name != [] && s.db == EMPTY && s.workers == map[] && s.holders == {} && s.cancels == {}
    && s.issued == multiset{} && s.early == {} && s.pasts == map[]
  }

  // ---------------------------------------------------------------- the invariant

  predicate Owns(s: Host, id: JobId) {
    HostLock(s) in s.db.locks && s.db.locks[HostLock(s)].owner == id
  }

  /** Everything the host holds about one job. */
  datatype View = View(job: Job, pc: Option<Pc>, owns: bool, issued: nat, early: bool, holder: bool,
                       past: Past)

  function ViewOf(s: Host, id: JobId): (v: View)
    requires id in s.db.jobs
  {
    View(s.db.jobs[id], if id in s.workers then Some(s.workers[id]) else None, Owns(s, id), s.issued[id],
         id in s.early, id in s.holders, PastOf(s, id))
  }

  predicate AtCall(v: View) { v.pc.Some? && v.pc.value.Calling? }

  /** The lock, call and cancel facts of one job. */
  predicate JobSafe(v: View) {
    && (Serialized(v.job.operation) && IsActive(v.job.state) ==> v.owns)
    && (IsServiceAction(v.job.operation) ==>
          && v.issued <= 1
          && (AtCall(v) ==> v.issued == 0 && !BeforeCall(v.job.state))
          && (BeforeCall(v.job.state) ==> v.issued == 0)
          && (v.job.result == Some(NotStarted) ==> v.issued == 0 && !AtCall(v) && IsTerminal(v.job.state))
          && (v.early ==>
                && v.issued == 0 && !AtCall(v) && v.job.cancelRequested
                && (BeforeCall(v.job.state) || IsTerminal(v.job.state))))
  }

  predicate HoldsOrEnded(v: View) { IsTerminal(v.job.state) || v.owns }

  /** A fault, a crash or a cancel may have taken the job off its normal course. */
  predicate Disturbed(job: Job, past: Past) { past.disturbed || job.cancelRequested }

  /** The job left the queue on an answer that let it start. */
  predicate Departed(past: Past) {
    past.parted.Some? && past.parted.value != DeadlinePassed && past.parted.value != StaleBaseline && past.parted.value != Fault
  }

  /** Each way of failing has its own evidence. */
  predicate FailureExplained(job: Job, past: Past) {
    match job.result
    case Some(Finished(success)) => !success && past.observed == Some(false) && past.answered == Some(Accepted)
    case Some(Refused) =>
      || past.answered == Some(Rejected)
      || (past.answered.None? && (past.invalid || past.parted == Some(StaleBaseline)))
    case Some(NotStarted) => past.answered.None? && Disturbed(job, past)
    case _ => false
  }

  /** Where a service job stands, against what the environment answered. */
  predicate Explained(job: Job, past: Past) {
    match job.state
    case Queued => job.result.None? && past.answered.None? && past.observed.None?
    case Dispatching => job.result == Some(Progress(false)) && past.answered.None? && past.observed.None? && Departed(past)
    case Running => job.result == Some(Progress(false)) && Departed(past)
    case Reconciling =>
      HasProgress(job) && Departed(past) && (job.result == Some(Progress(true)) ==> past.answered == Some(Accepted))
    case Succeeded => job.result == Some(Finished(true)) && past.observed == Some(true) && Departed(past)
    case Failed => FailureExplained(job, past)
    case Cancelled => job.result == Some(NotStarted) && job.cancelRequested && past.answered.None?
    case TimedOut => job.result == Some(Refused) && past.answered.None? && past.parted == Some(DeadlinePassed)
    case OutcomeUnknown => job.result == Some(EffectUnknown) && Departed(past)
  }

  /** How an undisturbed job ends: by the answer to its call, and by the observation if one was made. */
  predicate EndsAsAnswered(job: Job, past: Past) {
    match past.answered
    case None => job.state == Failed || job.state == TimedOut
    case Some(Rejected) => job.state == Failed && job.result == Some(Refused)
    case Some(AcknowledgementLost) => job.state == OutcomeUnknown
    case Some(Accepted) =>
      if past.observed.None? then job.state == OutcomeUnknown
      else job.state == (if past.observed.value then Succeeded else Failed) && job.result == Some(Finished(past.observed.value))
  }

  /** The worker stands between the dispatch of its job and the end of it. */
  predicate Engaged(pc: Option<Pc>) {
    && pc.Some?
    && (pc.value.Launching? || pc.value.Calling? || pc.value.Called? || pc.value.Watching? || pc.value.Seen?
        || pc.value.GivingUp?)
  }

  predicate OutcomeSafe(v: View) {
    && Explained(v.job, v.past)
    && (!Disturbed(v.job, v.past) ==>
          && (IsActive(v.job.state) ==> Engaged(v.pc))
          && (IsTerminal(v.job.state) ==> EndsAsAnswered(v.job, v.past)))
  }

  /** Nobody but a cancel request touched the row since the copy, unless it ended before the call. */
  predicate Fresh(copy: Job, row: Job) {
    || row == copy
    || (row.cancelRequested && row == copy.(revision := row.revision, cancelRequested := true))
    || (BeforeCall(copy.state) && IsTerminal(row.state))
  }

  /** What each position of a service worker knows about the answers so far. */
  predicate PcKnows(v: View, pc: Pc) {
    var calm := !Disturbed(v.job, v.past);
    match pc
    case QueueCopy(job) => Fresh(job, v.job)
    case Holding(job) => Fresh(job, v.job)
    case Launching(job) => Fresh(job, v.job)
    case Calling(job) => Fresh(job, v.job) && v.past.answered.None? && v.past.observed.None?
    case Called(job, outcome) => Fresh(job, v.job) && v.past.answered == Some(outcome) && v.past.observed.None?
    case Watching(job) => Fresh(job, v.job) && (calm ==> v.past.answered == Some(Accepted) && v.past.observed.None?
                                                         && job.result == Some(Progress(true)))
    case Recovering(job) => Fresh(job, v.job) && !calm
    case Seen(job, effect) =>
      && Fresh(job, v.job) && v.past.observed == Some(effect)
      && (if job.state == Reconciling then job.result == Some(Progress(true)) else job.state == Running && !calm)
    case GivingUp(job) =>
      && Fresh(job, v.job)
      && (calm ==> v.past.answered == Some(AcknowledgementLost)
                   || (v.past.answered == Some(Accepted) && v.past.observed.None?))
    case Erring => calm ==> IsTerminal(v.job.state)
    case ErringCopy(job) => Fresh(job, v.job) && (calm ==> IsTerminal(v.job.state))
    case _ => true
  }

  /** What each position of a service worker knows about its job. */
  predicate PcSafe(v: View, pc: Pc) {
    && IsServiceAction(v.job.operation)
    && match pc
       case Starting => true
       case Queueing => v.job.state == Queued || IsTerminal(v.job.state)
       case QueueCopy(job) => JobAdvances(job, v.job) && (job.state == Queued || IsTerminal(job.state))
       case Acquired => HoldsOrEnded(v)
       case Holding(job) => HoldsOrEnded(v) && JobAdvances(job, v.job)
       case Launching(job) => JobAdvances(job, v.job) && job.state == Dispatching && !job.cancelRequested
       case Calling(job) => JobAdvances(job, v.job) && job.state == Running
       case Called(job, outcome) => JobAdvances(job, v.job) && job.state == Running
       case Watching(job) => JobAdvances(job, v.job) && job.state == Reconciling
       case Seen(job, effect) => JobAdvances(job, v.job) && (job.state == Running || job.state == Reconciling)
       case GivingUp(job) => JobAdvances(job, v.job) && job.state == Reconciling
       case Recovering(job) => JobAdvances(job, v.job) && job.state == Running
       case Releasing => IsTerminal(v.job.state)
       case Erring => true
       case ErringCopy(job) => JobAdvances(job, v.job)
  }

  predicate ViewSafe(v: View) {
    && JobSafe(v)
    && (IsServiceAction(v.job.operation) ==> OutcomeSafe(v))
    && (v.pc.Some? ==> PcSafe(v, v.pc.value) && PcKnows(v, v.pc.value))
    && (v.holder ==> HoldsOrEnded(v) && SerializesHostChanges(v.job.operation))
  }

  predicate CancelSafe(jobs: map<JobId, Job>, task: CancelTask) {
    && task.id in jobs
    && match task
       case CancelCommit(id, job) =>
         JobAdvances(job, jobs[id]) && job.cancelRequested && (IsServiceAction(job.operation) ==> BeforeCall(job.state))
       case CancelRelease(id) => IsTerminal(jobs[id].state)
  }

  /** Nothing is known about a job that was never accepted. */
  predicate Absent(s: Host, id: JobId) {
    s.issued[id] == 0 && id !in s.early && id !in s.workers && id !in s.holders && id !in s.pasts
  }

  ghost predicate Safe(s: Host) {
    && s.name != [] && LocksLinked(s.db.locks, s.db.jobs)
    && (forall id :: id in s.db.jobs ==> ViewSafe(ViewOf(s, id)))
    && (forall id :: id !in s.db.jobs ==> Absent(s, id))
    && (forall t :: t in s.cancels ==> CancelSafe(s.db.jobs, t))
  }

  // ---------------------------------------------------------------- steps of other jobs

  /** The step of another job may only take the lock of an ended job or drop a holder. */
  predicate Follows(v: View, v': View) {
    && v' == v.(owns := v'.owns, holder := v'.holder)
    && (v.owns && !IsTerminal(v.job.state) ==> v'.owns) && (v'.holder ==> v.holder)
  }

  lemma FollowingIsSafe(v: View, v': View)
    requires ViewSafe(v) && Follows(v, v')
    ensures ViewSafe(v')
  {
    if v.pc.Some? {
      assert PcSafe(v, v.pc.value) && PcKnows(v, v.pc.value);
    }
  }

  /** The parts of the host that belong to other jobs. */
  predicate OnlyJob(s: Host, s': Host, id: JobId) {
    && s'.name == s.name && id in s'.db.jobs && s'.db.jobs == s.db.jobs[id := s'.db.jobs[id]]
    && s'.workers - {id} == s.workers - {id} && s'.holders <= s.holders + {id}
    && s'.early - {id} == s.early - {id}
    && s'.issued[id := 0] == s.issued[id := 0]
    && s'.pasts - {id} == s.pasts - {id}
  }

  lemma OtherPast(s: Host, s': Host, id: JobId, i: JobId)
    requires s'.pasts - {id} == s.pasts - {id} && i != id
    ensures PastOf(s', i) == PastOf(s, i) && (i in s'.pasts <==> i in s.pasts)
  {
    assert i in s.pasts <==> i in s.pasts - {id};
    assert i in s'.pasts <==> i in s'.pasts - {id};
    assert i in s.pasts ==> (s.pasts - {id})[i] == s.pasts[i];
    assert i in s'.pasts ==> (s'.pasts - {id})[i] == s'.pasts[i];
  }

  predicate LockSpared(s: Host, s': Host, i: JobId)
    requires i in s.db.jobs
  {
    Owns(s, i) && !IsTerminal(s.db.jobs[i].state) ==> Owns(s', i)
  }

  lemma OtherFollows(s: Host, s': Host, id: JobId, i: JobId)
    requires OnlyJob(s, s', id) && i != id && i in s.db.jobs && LockSpared(s, s', i)
    ensures i in s'.db.jobs && Follows(ViewOf(s, i), ViewOf(s', i))
  {
    OtherPast(s, s', id, i);
    assert i in s.workers - {id} <==> i in s.workers;
    assert i in s'.workers - {id} <==> i in s'.workers;
    assert i in s.workers ==> (s.workers - {id})[i] == s.workers[i];
    assert i in s'.workers ==> (s'.workers - {id})[i] == s'.workers[i];
    assert i in s.early - {id} <==> i in s.early;
    assert i in s'.early - {id} <==> i in s'.early;
    assert s.issued[i] == s.issued[id := 0][i] == s'.issued[id := 0][i] == s'.issued[i];
  }

  lemma AbsentStays(s: Host, s': Host, id: JobId, i: JobId)
    requires OnlyJob(s, s', id) && i !in s'.db.jobs && Absent(s, i)
    ensures Absent(s', i)
  {
    assert i != id;
    OtherPast(s, s', id, i);
    assert i in s'.workers ==> i in s'.workers - {id};
    assert i in s'.early ==> i in s'.early - {id};
    assert s.issued[i] == s.issued[id := 0][i] == s'.issued[id := 0][i] == s'.issued[i];
  }

  predicate CancelsFrom(s: Host, s': Host) {
    forall t :: t in s'.cancels ==> t in s.cancels || CancelSafe(s'.db.jobs, t)
  }

  lemma CancelStays(jobs: map<JobId, Job>, jobs': map<JobId, Job>, t: CancelTask)
    requires CancelSafe(jobs, t) && t.id in jobs' && JobAdvances(jobs[t.id], jobs'[t.id])
    ensures CancelSafe(jobs', t)
  {
  }

  /** A step of one job: only that job's view has to be re-established. */
  lemma StepOf(s: Host, s': Host, id: JobId)
    requires Safe(s) && OnlyJob(s, s', id) && ViewSafe(ViewOf(s', id)) && CancelsFrom(s, s')
    requires id in s.db.jobs ==> JobAdvances(s.db.jobs[id], s'.db.jobs[id])
    requires LocksLinked(s'.db.locks, s'.db.jobs)
    requires forall i :: i in s.db.jobs && i != id ==> LockSpared(s, s', i)
    ensures Safe(s')
  {
    forall i | i in s'.db.jobs ensures ViewSafe(ViewOf(s', i)) {
      if i != id {
        OtherFollows(s, s', id, i);
        FollowingIsSafe(ViewOf(s, i), ViewOf(s', i));
      }
    }
    forall i | i !in s'.db.jobs ensures Absent(s', i) {
      AbsentStays(s, s', id, i);
    }
    forall t | t in s'.cancels ensures CancelSafe(s'.db.jobs, t) {
      if t in s.cancels {
        if t.id != id {
          JobAdvancesSelf(s.db.jobs[t.id]);
        }
        CancelStays(s.db.jobs, s'.db.jobs, t);
      }
    }
  }

  /** As `StepOf`, for steps that leave the locks alone. */
  lemma LocklessStepOf(s: Host, s': Host, id: JobId)
    requires Safe(s) && OnlyJob(s, s', id) && ViewSafe(ViewOf(s', id)) && CancelsFrom(s, s')
    requires id in s.db.jobs ==> JobAdvances(s.db.jobs[id], s'.db.jobs[id])
    requires s'.db.locks == s.db.locks
    ensures Safe(s')
  {
    forall i | i in s.db.jobs && i != id ensures LockSpared(s, s', i) {
      assert HostLock(s') == HostLock(s);
    }
    StepOf(s, s', id);
  }

  // ---------------------------------------------------------------- service workers

  /** What the worker code guarantees about each of its commits. */
  predicate CommitAllowed(v: View, a: Action)
    requires a.CommitTo?
  {
    && JobAdvances(a.job, v.job) && Fresh(a.job, v.job) && CanStep(a.job.state, a.next)
    && (v.job == a.job ==> CommitExplained(v, a))
    && a.next != Queued
    && (a.next == Dispatching ==> HoldsOrEnded(v) && a.job.state == Queued && !a.job.cancelRequested)
    && (a.next == Running ==> a.job.state == Dispatching && !a.job.cancelRequested)
    && (a.next == Reconciling ==> a.job.state == Running)
    && (a.result == Some(NotStarted) && v.job == a.job ==> BeforeCall(a.job.state) && IsTerminal(a.next))
    && match a.after
       case ToLaunching => a.next == Dispatching
       case ToCalling => a.next == Running
       case ToWatching => a.next == Reconciling
       case ToGivingUp => a.next == Reconciling
       case ToReleasing => IsTerminal(a.next)
       case ToErringCopy => a.next == Reconciling
       case ToStop => IsTerminal(a.next)
  }

  /** The committed row is explained by the answers, and so is the worker's next position. */
  predicate CommitExplained(v: View, a: Action)
    requires a.CommitTo?
  {
    var v' := CommittedView(v, a);
    OutcomeSafe(v') && (v'.pc.Some? ==> PcKnows(v', v'.pc.value))
  }

  /** A worker leaves an active job alone only when something hit it. */
  predicate Rests(v: View, pc: Option<Pc>) {
    !Disturbed(v.job, v.past) && IsActive(v.job.state) ==> Engaged(pc)
  }

  predicate Permitted(v: View, pc: Pc, a: Action) {
    match a
    case Go(next) => PcSafe(v, next) && PcKnows(v, next) && !next.Calling? && Rests(v, Some(next))
    case Read => pc.Queueing? || pc.Acquired? || pc.Erring?
    case Acquire => pc.Starting?
    case CommitTo(_, _, _, _, lost) => CommitAllowed(v, a) && !pc.Calling? && (lost == Erring || lost == Starting)
    case CallSystemd(job, _) => pc == Calling(job)
    case Look(job, _) =>
      (pc == Watching(job) || pc == Recovering(job)) && (job.state == Reconciling ==> job.result == Some(Progress(true)))
    case Free => IsTerminal(v.job.state)
    case Quit => IsTerminal(v.job.state)
    case Wait => true
  }

  /** The choice behind the decision is the last one the worker heard. */
  predicate Hears(v: View, choice: Choice) {
    v.past.heard == choice && (choice == Fault ==> v.past.disturbed)
  }

  /** Every decision of the worker code is permitted by what its position knows. */
  lemma DecisionIsPermitted(v: View, pc: Pc, choice: Choice)
    requires ViewSafe(v) && v.pc == Some(pc) && Hears(v, choice)
    ensures Permitted(v, pc, Decide(pc, choice))
  {
    assert PcSafe(v, pc) && PcKnows(v, pc);
    if choice == Fault {
    } else if pc.Holding? {
      HoldingIsPermitted(v, pc.job, choice);
    } else if CopiesOrWatches(pc) {
      CopyIsPermitted(v, pc, choice);
    } else {
      PlainIsPermitted(v, pc, choice);
    }
  }

  /** What a decision may rely on. */
  predicate Informed(v: View, pc: Pc, choice: Choice) {
    JobSafe(v) && OutcomeSafe(v) && PcSafe(v, pc) && PcKnows(v, pc) && v.pc == Some(pc) && Hears(v, choice) && choice != Fault
  }

  predicate CopiesOrWatches(pc: Pc) {
    pc.QueueCopy? || pc.ErringCopy? || pc.Called? || pc.Watching? || pc.Recovering? || pc.Seen?
  }

  lemma CopyIsPermitted(v: View, pc: Pc, choice: Choice)
    requires Informed(v, pc, choice) && CopiesOrWatches(pc)
    ensures Permitted(v, pc, Decide(pc, choice))
  {
    match pc
    case QueueCopy(job) => QueueIsPermitted(v, job, choice);
    case ErringCopy(job) => ErringIsPermitted(v, job, choice);
    case Called(job, outcome) => CalledIsPermitted(v, job, outcome, choice);
    case Watching(job) => WatchingIsPermitted(v, pc, choice);
    case Recovering(job) => WatchingIsPermitted(v, pc, choice);
    case Seen(job, effect) => SeenIsPermitted(v, job, effect, choice);
  }

  lemma PlainIsPermitted(v: View, pc: Pc, choice: Choice)
    requires Informed(v, pc, choice) && !pc.Holding? && !CopiesOrWatches(pc)
    ensures Permitted(v, pc, Decide(pc, choice))
  {
    if pc.Launching? {
      LaunchingIsPermitted(v, pc, choice);
    } else if pc.GivingUp? {
      GivingUpIsPermitted(v, pc, choice);
    }
  }

  lemma LaunchingIsPermitted(v: View, pc: Pc, choice: Choice)
    requires Informed(v, pc, choice) && pc.Launching?
    ensures Permitted(v, pc, Decide(pc, choice))
  {
  }

  lemma GivingUpIsPermitted(v: View, pc: Pc, choice: Choice)
    requires Informed(v, pc, choice) && pc.GivingUp?
    ensures Permitted(v, pc, Decide(pc, choice))
  {
  }

  /** With the lock held, a queued job may start and every other state knows where it stands. */
  lemma HoldingIsPermitted(v: View, job: Job, choice: Choice)
    requires Informed(v, Holding(job), choice)
    ensures Permitted(v, Holding(job), DecideHolding(job, choice))
  {
    if BeforeCall(job.state) {
      HoldingEarlyIsPermitted(v, job, choice);
    }
  }

  lemma HoldingEarlyIsPermitted(v: View, job: Job, choice: Choice)
    requires Informed(v, Holding(job), choice) && BeforeCall(job.state)
    ensures Permitted(v, Holding(job), DecideHolding(job, choice))
  {
    if v.job == job && DecideHolding(job, choice).CommitTo? {
      HoldingEarlyIsExplained(v, job, choice);
    }
  }

  lemma HoldingEarlyIsExplained(v: View, job: Job, choice: Choice)
    requires Informed(v, Holding(job), choice) && BeforeCall(job.state) && v.job == job && DecideHolding(job, choice).CommitTo?
    ensures CommitExplained(v, DecideHolding(job, choice))
  {
  }

  lemma QueueIsPermitted(v: View, job: Job, choice: Choice)
    requires Informed(v, QueueCopy(job), choice)
    ensures Permitted(v, QueueCopy(job), Decide(QueueCopy(job), choice))
  {
    if v.job == job && Decide(QueueCopy(job), choice).CommitTo? {
      QueueIsExplained(v, job, choice);
    }
  }

  lemma QueueIsExplained(v: View, job: Job, choice: Choice)
    requires Informed(v, QueueCopy(job), choice) && v.job == job && Decide(QueueCopy(job), choice).CommitTo?
    ensures CommitExplained(v, Decide(QueueCopy(job), choice))
  {
  }

  lemma ErringIsPermitted(v: View, job: Job, choice: Choice)
    requires Informed(v, ErringCopy(job), choice)
    ensures Permitted(v, ErringCopy(job), Decide(ErringCopy(job), choice))
  {
    if BeforeCall(job.state) {
      ErringEarlyIsPermitted(v, job, choice);
    } else if !IsTerminal(job.state) {
      ErringLateIsPermitted(v, job, choice);
    }
  }

  lemma ErringEarlyIsPermitted(v: View, job: Job, choice: Choice)
    requires Informed(v, ErringCopy(job), choice) && BeforeCall(job.state)
    ensures Permitted(v, ErringCopy(job), Decide(ErringCopy(job), choice))
  {
    if v.job == job && Decide(ErringCopy(job), choice).CommitTo? {
      ErringEarlyIsExplained(v, job, choice);
    }
  }

  lemma ErringEarlyIsExplained(v: View, job: Job, choice: Choice)
    requires Informed(v, ErringCopy(job), choice) && BeforeCall(job.state) && v.job == job && Decide(ErringCopy(job), choice).CommitTo?
    ensures CommitExplained(v, Decide(ErringCopy(job), choice))
  {
  }

  lemma ErringLateIsPermitted(v: View, job: Job, choice: Choice)
    requires Informed(v, ErringCopy(job), choice) && (job.state == Running || job.state == Reconciling)
    ensures Permitted(v, ErringCopy(job), Decide(ErringCopy(job), choice))
  {
    if v.job == job && Decide(ErringCopy(job), choice).CommitTo? {
      ErringLateIsExplained(v, job, choice);
    }
  }

  lemma ErringLateIsExplained(v: View, job: Job, choice: Choice)
    requires Informed(v, ErringCopy(job), choice) && (job.state == Running || job.state == Reconciling) && v.job == job && Decide(ErringCopy(job), choice).CommitTo?
    ensures CommitExplained(v, Decide(ErringCopy(job), choice))
  {
  }

  lemma CalledIsPermitted(v: View, job: Job, outcome: CallOutcome, choice: Choice)
    requires Informed(v, Called(job, outcome), choice)
    ensures Permitted(v, Called(job, outcome), Decide(Called(job, outcome), choice))
  {
    if v.job == job && Decide(Called(job, outcome), choice).CommitTo? {
      CalledIsExplained(v, job, outcome, choice);
    }
  }

  lemma CalledIsExplained(v: View, job: Job, outcome: CallOutcome, choice: Choice)
    requires Informed(v, Called(job, outcome), choice) && v.job == job && Decide(Called(job, outcome), choice).CommitTo?
    ensures CommitExplained(v, Decide(Called(job, outcome), choice))
  {
  }

  lemma WatchingIsPermitted(v: View, pc: Pc, choice: Choice)
    requires Informed(v, pc, choice) && (pc.Watching? || pc.Recovering?)
    ensures Permitted(v, pc, Decide(pc, choice))
  {
  }

  lemma SeenIsPermitted(v: View, job: Job, effect: bool, choice: Choice)
    requires Informed(v, Seen(job, effect), choice)
    ensures Permitted(v, Seen(job, effect), Decide(Seen(job, effect), choice))
  {
    if v.job == job && Decide(Seen(job, effect), choice).CommitTo? {
      SeenIsExplained(v, job, effect, choice);
    }
  }

  lemma SeenIsExplained(v: View, job: Job, effect: bool, choice: Choice)
    requires Informed(v, Seen(job, effect), choice) && v.job == job && Decide(Seen(job, effect), choice).CommitTo?
    ensures CommitExplained(v, Decide(Seen(job, effect), choice))
  {
  }

  /** Moving a worker to a position its job allows, or to none. */
  lemma PcMoveIsSafe(s: Host, id: JobId, pc: Option<Pc>)
    requires Safe(s) && id in s.db.jobs && Rests(ViewOf(s, id), pc)
    requires pc.Some? ==> PcSafe(ViewOf(s, id), pc.value) && PcKnows(ViewOf(s, id), pc.value) && !pc.value.Calling?
    ensures Safe(SetPc(s, id, pc))
  {
    var s' := SetPc(s, id, pc);
    PcShape(s, id, pc);
    PcView(ViewOf(s, id), pc);
    JobAdvancesSelf(s.db.jobs[id]);
    LocklessStepOf(s, s', id);
  }

  lemma PcShape(s: Host, id: JobId, pc: Option<Pc>)
    requires id in s.db.jobs
    ensures
      var s' := SetPc(s, id, pc);
      && s'.db == s.db && s'.cancels == s.cancels && s'.pasts == s.pasts && OnlyJob(s, s', id)
      && ViewOf(s', id) == ViewOf(s, id).(pc := pc)
  {
    var s' := SetPc(s, id, pc);
    assert s'.workers - {id} == s.workers - {id};
    assert s'.db.jobs == s.db.jobs[id := s'.db.jobs[id]];
  }

  lemma PcView(v: View, pc: Option<Pc>)
    requires ViewSafe(v) && (pc.Some? ==> PcSafe(v, pc.value) && PcKnows(v, pc.value) && !pc.value.Calling?) && Rests(v, pc)
    ensures ViewSafe(v.(pc := pc))
  {
  }

  lemma PastShape(s: Host, id: JobId, past: Past)
    requires id in s.db.jobs
    ensures
      var s' := SetPast(s, id, past);
      s'.db == s.db && s'.cancels == s.cancels && OnlyJob(s, s', id) && ViewOf(s', id) == ViewOf(s, id).(past := past)
  {
    var s' := SetPast(s, id, past);
    assert s'.pasts - {id} == s.pasts - {id};
    assert s'.db.jobs == s.db.jobs[id := s'.db.jobs[id]];
  }

  lemma NotedView(v: View, choice: Choice)
    requires ViewSafe(v)
    ensures ViewSafe(v.(past := v.past.(heard := choice, disturbed := v.past.disturbed || choice == Fault)))
  {
    if v.pc.Some? {
      assert PcSafe(v, v.pc.value) && PcKnows(v, v.pc.value);
    }
  }

  lemma NotedIsSafe(s: Host, id: JobId, choice: Choice)
    requires Safe(s) && id in s.workers && id in s.db.jobs
    ensures Safe(Noted(s, id, choice)) && Hears(ViewOf(Noted(s, id, choice), id), choice)
    ensures Noted(s, id, choice).workers == s.workers && Noted(s, id, choice).db == s.db
  {
    var past := PastOf(s, id).(heard := choice, disturbed := PastOf(s, id).disturbed || choice == Fault);
    PastShape(s, id, past);
    NotedView(ViewOf(s, id), choice);
    JobAdvancesSelf(s.db.jobs[id]);
    LocklessStepOf(s, Noted(s, id, choice), id);
  }

  /** The committed record, seen from the position the worker takes next. */
  function CommittedView(v: View, a: Action): (v': View)
    requires a.CommitTo?
  {
    var job := a.job.(state := a.next, revision := a.job.revision + 1, result := a.result);
    v.(job := job, pc := AfterPc(a.after, job), past := Parted(v.job, v.past, a))
  }

  lemma CommitView(v: View, a: Action)
    requires ViewSafe(v) && a.CommitTo? && CommitAllowed(v, a) && v.job == a.job && CanStep(a.job.state, a.next)
    requires v.pc.Some? && !v.pc.value.Calling?
    ensures ViewSafe(CommittedView(v, a))
  {
    var v' := CommittedView(v, a);
    TransitionAdvances(a.job, a.next, a.result);
    JobAdvancesSelf(v'.job);
    CommitJobSafe(v, a);
    CommitPcSafe(v, a);
  }

  lemma CommitJobSafe(v: View, a: Action)
    requires v.pc.Some? && !v.pc.value.Calling? && JobSafe(v) && PcSafe(v, v.pc.value)
    requires a.CommitTo? && CommitAllowed(v, a) && v.job == a.job && CanStep(a.job.state, a.next)
    ensures JobSafe(CommittedView(v, a))
  {
  }

  lemma CommitPcSafe(v: View, a: Action)
    requires a.CommitTo? && CommitAllowed(v, a) && v.job == a.job && IsServiceAction(v.job.operation)
    requires JobAdvances(CommittedView(v, a).job, CommittedView(v, a).job)
    ensures CommittedView(v, a).pc.Some? ==> PcSafe(CommittedView(v, a), CommittedView(v, a).pc.value)
  {
  }

  lemma CommittedIsSafe(s: Host, id: JobId, a: Action)
    requires Safe(s) && id in s.workers && id in s.db.jobs && a.CommitTo? && CommitAllowed(ViewOf(s, id), a)
    requires !s.workers[id].Calling? && TransitionJob(s.db, id, a.job.revision, a.next, a.result).Ok?
    ensures Safe(CommitNext(s, id, a))
  {
    CommitShape(s, id, a);
    CommitView(ViewOf(s, id), a);
    TransitionAdvances(a.job, a.next, a.result);
    LocklessStepOf(s, CommitNext(s, id, a), id);
  }

  lemma CommitIsSafe(s: Host, id: JobId, a: Action)
    requires Safe(s) && id in s.workers && id in s.db.jobs && a.CommitTo? && Permitted(ViewOf(s, id), s.workers[id], a)
    ensures Safe(CommitNext(s, id, a))
  {
    assert PcSafe(ViewOf(s, id), s.workers[id]);
    if TransitionJob(s.db, id, a.job.revision, a.next, a.result).Ok? {
      CommittedIsSafe(s, id, a);
    } else {
      PcMoveIsSafe(s, id, Some(a.lost));
    }
  }

  /** Over one job, a commit is a history entry and a move. */
  lemma PartedShape(s: Host, id: JobId, past: Past, pc: Option<Pc>)
    requires id in s.db.jobs
    ensures
      var s' := SetPc(SetPast(s, id, past), id, pc);
      && s'.db == s.db && s'.cancels == s.cancels && OnlyJob(s, s', id)
      && ViewOf(s', id) == ViewOf(s, id).(pc := pc, past := past)
  {
    PastShape(s, id, past);
    PcShape(SetPast(s, id, past), id, pc);
  }

  lemma CommitShape(s: Host, id: JobId, a: Action)
    requires id in s.db.jobs && a.CommitTo? && JobAdvances(a.job, s.db.jobs[id])
    requires TransitionJob(s.db, id, a.job.revision, a.next, a.result).Ok?
    ensures
      var s' := CommitNext(s, id, a);
      && s.db.jobs[id] == a.job && CanStep(a.job.state, a.next)
      && s'.db.locks == s.db.locks && s'.cancels == s.cancels && OnlyJob(s, s', id)
      && ViewOf(s', id) == CommittedView(ViewOf(s, id), a)
  {
    TransitionEffect(s.db, id, a.job.revision, a.next, a.result);
    var db' := TransitionJob(s.db, id, a.job.revision, a.next, a.result).value;
    var past := Parted(s.db.jobs[id], PastOf(s, id), a);
    PartedShape(s.(db := db'), id, past, AfterPc(a.after, db'.jobs[id]));
    assert ViewOf(s.(db := db'), id) == ViewOf(s, id).(job := db'.jobs[id]);
    assert SetPast(s.(db := db'), id, past).db.jobs == s.db.jobs[id := db'.jobs[id]];
  }

  // ---------------------------------------------------------------- the lock

  /** The lock goes to `id`, or away from it once it ended; live owners keep theirs. */
  ghost predicate LockMoves(s: Host, s': Host, id: JobId) {
    && s' == s.(db := s.db.(locks := s'.db.locks))
    && LocksLinked(s'.db.locks, s.db.jobs)
    && forall i :: i in s.db.jobs && i != id ==> LockSpared(s, s', i)
  }

  lemma LockMoveIsSafe(s: Host, s': Host, id: JobId)
    requires Safe(s) && id in s.db.jobs && LockMoves(s, s', id) && (Owns(s', id) || IsTerminal(s.db.jobs[id].state))
    ensures Safe(s')
  {
    LockShape(s, s', id);
    LockView(ViewOf(s, id), Owns(s', id));
    JobAdvancesSelf(s.db.jobs[id]);
    StepOf(s, s', id);
  }

  lemma LockShape(s: Host, s': Host, id: JobId)
    requires id in s.db.jobs && s' == s.(db := s.db.(locks := s'.db.locks))
    ensures OnlyJob(s, s', id) && ViewOf(s', id) == ViewOf(s, id).(owns := Owns(s', id))
  {
    assert s'.db.jobs == s.db.jobs[id := s'.db.jobs[id]];
  }

  lemma LockView(v: View, owns: bool)
    requires ViewSafe(v) && (owns || IsTerminal(v.job.state))
    ensures ViewSafe(v.(owns := owns))
  {
    if v.pc.Some? {
      assert PcSafe(v, v.pc.value) && PcKnows(v, v.pc.value);
    }
  }

  lemma AcquiredMoves(s: Host, id: JobId)
    requires id in s.db.jobs && LocksLinked(s.db.locks, s.db.jobs) && TryAcquire(s.db, HostLock(s), id).Ok?
    ensures
      var a := TryAcquire(s.db, HostLock(s), id).value;
      var s' := s.(db := a.db);
      && LockMoves(s, s', id) && (a.acquired <==> Owns(s', id)) && (!a.acquired ==> s' == s)
  {
    AcquireEffect(s.db, HostLock(s), id);
    var a := TryAcquire(s.db, HostLock(s), id).value;
    var s' := s.(db := a.db);
    assert HostLock(s') == HostLock(s);
    if !a.acquired {
      assert a.db.locks == s.db.locks;
    }
  }

  /** The lock moves only away from an ended owner. */
  lemma AcquireIsSafe(s: Host, id: JobId)
    requires Safe(s) && id in s.db.jobs && TryAcquire(s.db, HostLock(s), id).Ok?
    ensures
      var a := TryAcquire(s.db, HostLock(s), id).value;
      Safe(s.(db := a.db)) && a.db.jobs == s.db.jobs && (a.acquired <==> Owns(s.(db := a.db), id))
  {
    AcquiredMoves(s, id);
    var a := TryAcquire(s.db, HostLock(s), id).value;
    if a.acquired {
      LockMoveIsSafe(s, s.(db := a.db), id);
    }
  }

  lemma AcquireNextIsSafe(s: Host, id: JobId)
    requires Safe(s) && id in s.db.jobs && id in s.workers && s.workers[id] == Starting
    ensures Safe(AcquireNext(s, id))
  {
    var a := TryAcquire(s.db, HostLock(s), id);
    assert PcSafe(ViewOf(s, id), Starting) && OutcomeSafe(ViewOf(s, id));
    if a.Ok? {
      AcquireIsSafe(s, id);
      WaitsOrHolds(s.(db := a.value.db), id);
    }
  }

  lemma WaitsOrHolds(s: Host, id: JobId)
    requires Safe(s) && id in s.db.jobs && id in s.workers && s.workers[id] == Starting
    ensures Safe(SetPc(s, id, Some(if Owns(s, id) then Acquired else Queueing)))
  {
    assert PcSafe(ViewOf(s, id), Starting) && OutcomeSafe(ViewOf(s, id));
    WaitingIsQueued(ViewOf(s, id));
    PcMoveIsSafe(s, id, Some(if Owns(s, id) then Acquired else Queueing));
  }

  /** A service job without the lock has not started, or has ended. */
  lemma WaitingIsQueued(v: View)
    requires JobSafe(v) && IsServiceAction(v.job.operation)
    ensures PcSafe(v, if v.owns then Acquired else Queueing)
  {
  }

  lemma ReleaseIsSafe(s: Host, id: JobId)
    requires Safe(s) && id in s.db.jobs && IsTerminal(s.db.jobs[id].state)
    ensures Safe(s.(db := Release(s.db, HostLock(s), id)))
  {
    LockMoveIsSafe(s, s.(db := Release(s.db, HostLock(s), id)), id);
  }

  // ---------------------------------------------------------------- the call

  lemma CallView(v: View, job: Job, outcome: CallOutcome)
    requires ViewSafe(v) && v.pc == Some(Calling(job))
    ensures ViewSafe(v.(issued := v.issued + 1, past := v.past.(answered := Some(outcome)), pc := Some(Called(job, outcome))))
  {
    assert PcSafe(v, Calling(job)) && PcKnows(v, Calling(job));
  }

  lemma CallIsSafe(s: Host, id: JobId, job: Job, outcome: CallOutcome)
    requires Safe(s) && id in s.workers && id in s.db.jobs && s.workers[id] == Calling(job)
    ensures Safe(CallNext(s, id, job, outcome))
  {
    var s' := CallNext(s, id, job, outcome);
    CallShape(s, id, job, outcome);
    CallView(ViewOf(s, id), job, outcome);
    JobAdvancesSelf(s.db.jobs[id]);
    LocklessStepOf(s, s', id);
  }

  lemma CallShape(s: Host, id: JobId, job: Job, outcome: CallOutcome)
    requires id in s.db.jobs
    ensures
      var s' := CallNext(s, id, job, outcome);
      && s'.db == s.db && s'.cancels == s.cancels && OnlyJob(s, s', id)
      && ViewOf(s', id) == ViewOf(s, id).(issued := s.issued[id] + 1, past := PastOf(s, id).(answered := Some(outcome)),
                                          pc := Some(Called(job, outcome)))
  {
    var called := SetPast(s, id, PastOf(s, id).(answered := Some(outcome)));
    PastShape(s, id, PastOf(s, id).(answered := Some(outcome)));
    var issued := called.(issued := s.issued + multiset{id});
    assert ViewOf(issued, id) == ViewOf(called, id).(issued := s.issued[id] + 1);
    assert issued.issued[id := 0] == s.issued[id := 0];
    PcShape(issued, id, Some(Called(job, outcome)));
  }

  lemma LookView(v: View, job: Job, effect: bool)
    requires ViewSafe(v) && v.pc.Some? && Permitted(v, v.pc.value, Look(job, effect))
    ensures ViewSafe(v.(past := v.past.(observed := Some(effect)), pc := Some(Seen(job, effect))))
  {
    assert PcSafe(v, v.pc.value) && PcKnows(v, v.pc.value);
  }

  lemma LookIsSafe(s: Host, id: JobId, job: Job, effect: bool)
    requires Safe(s) && id in s.workers && id in s.db.jobs && Permitted(ViewOf(s, id), s.workers[id], Look(job, effect))
    ensures Safe(SetPc(SetPast(s, id, PastOf(s, id).(observed := Some(effect))), id, Some(Seen(job, effect))))
  {
    var past := PastOf(s, id).(observed := Some(effect));
    PartedShape(s, id, past, Some(Seen(job, effect)));
    LookView(ViewOf(s, id), job, effect);
    JobAdvancesSelf(s.db.jobs[id]);
    LocklessStepOf(s, SetPc(SetPast(s, id, past), id, Some(Seen(job, effect))), id);
  }

  lemma WorkIsSafe(s: Host, id: JobId, choice: Choice)
    requires Safe(s) && id in s.workers && id in s.db.jobs
    ensures Safe(Perform(Noted(s, id, choice), id, s.workers[id], Decide(s.workers[id], choice)))
  {
    NotedIsSafe(s, id, choice);
    var noted := Noted(s, id, choice);
    DecisionIsPermitted(ViewOf(noted, id), s.workers[id], choice);
    PerformIsSafe(noted, id, Decide(s.workers[id], choice));
  }

  lemma ReadIsSafe(s: Host, id: JobId)
    requires Safe(s) && id in s.workers && id in s.db.jobs
    requires s.workers[id].Queueing? || s.workers[id].Acquired? || s.workers[id].Erring?
    ensures Safe(SetPc(s, id, Some(CopyPc(s.workers[id], s.db.jobs[id]))))
  {
    assert ViewSafe(ViewOf(s, id));
    CopyIsKnown(ViewOf(s, id), s.workers[id]);
    PcMoveIsSafe(s, id, Some(CopyPc(s.workers[id], s.db.jobs[id])));
  }

  /** A position that reads its record knows it right after. */
  lemma CopyIsKnown(v: View, pc: Pc)
    requires ViewSafe(v) && v.pc == Some(pc) && (pc.Queueing? || pc.Acquired? || pc.Erring?)
    ensures
      var next := CopyPc(pc, v.job);
      PcSafe(v, next) && PcKnows(v, next) && !next.Calling? && Rests(v, Some(next))
  {
    JobAdvancesSelf(v.job);
    assert PcSafe(v, pc) && PcKnows(v, pc);
  }

  lemma FreeIsSafe(s: Host, id: JobId)
    requires Safe(s) && id in s.db.jobs && IsTerminal(s.db.jobs[id].state)
    ensures Safe(SetPc(s.(db := Release(s.db, HostLock(s), id)), id, None))
  {
    ReleaseIsSafe(s, id);
    PcMoveIsSafe(s.(db := Release(s.db, HostLock(s), id)), id, None);
  }

  lemma GoIsSafe(s: Host, id: JobId, next: Pc)
    requires Safe(s) && id in s.workers && id in s.db.jobs && Permitted(ViewOf(s, id), s.workers[id], Go(next))
    ensures Safe(SetPc(s, id, Some(next)))
  {
    PcMoveIsSafe(s, id, Some(next));
  }

  lemma QuitIsSafe(s: Host, id: JobId)
    requires Safe(s) && id in s.db.jobs && IsTerminal(s.db.jobs[id].state)
    ensures Safe(SetPc(s, id, None))
  {
    PcMoveIsSafe(s, id, None);
  }

  lemma PerformIsSafe(s: Host, id: JobId, a: Action)
    requires Safe(s) && id in s.workers && id in s.db.jobs && Permitted(ViewOf(s, id), s.workers[id], a)
    ensures Safe(Perform(s, id, s.workers[id], a))
  {
    var pc := s.workers[id];
    assert PcSafe(ViewOf(s, id), pc);
    match a
    case Go(next) => GoIsSafe(s, id, next);
    case Read => ReadIsSafe(s, id);
    case Acquire => AcquireNextIsSafe(s, id);
    case CommitTo(_, _, _, _, _) => CommitIsSafe(s, id, a);
    case CallSystemd(job, outcome) => CallIsSafe(s, id, job, outcome);
    case Look(job, effect) => LookIsSafe(s, id, job, effect);
    case Free => FreeIsSafe(s, id);
    case Quit => QuitIsSafe(s, id);
    case Wait =>
  }

  // ---------------------------------------------------------------- the other steps

  lemma FreshView(request: NewJob)
    ensures ViewSafe(View(FreshJob(request), None, false, 0, false, false, UNTOUCHED))
  {
  }

  lemma AcceptIsSafe(s: Host, id: JobId, request: NewJob)
    requires Safe(s)
    ensures Safe(s.(db := AfterAccept(s.db, id, request)))
  {
    var r := AcceptJob(s.db, id, request);
    if r.Ok? {
      AcceptEffect(s.db, id, request);
      if r.value.created {
        AddedJobIsSafe(s, s.(db := r.value.db), id, request);
      }
    }
  }

  lemma AddedJobIsSafe(s: Host, s': Host, id: JobId, request: NewJob)
    requires Safe(s) && s' == s.(db := s'.db) && AddsJob(s.db, s'.db, id, request)
    ensures Safe(s')
  {
    assert Absent(s, id);
    assert !Owns(s', id);
    FreshView(request);
    assert ViewOf(s', id) == View(FreshJob(request), None, false, 0, false, false, UNTOUCHED);
    LocklessStepOf(s, s', id);
  }

  /** What a commit by other code than the job's service worker may do, with the history it leaves. */
  predicate MoveAllowed(v: View, next: JobState, result: Option<Evidence>, past: Past) {
    && (past == v.past || past == v.past.(invalid := true))
    && if IsServiceAction(v.job.operation) then
         BeforeCall(v.job.state) && IsTerminal(next) && OutcomeSafe(MovedView(v, next, result, past))
       else next == Dispatching && SerializesHostChanges(v.job.operation) ==> v.holder
  }

  function MovedView(v: View, next: JobState, result: Option<Evidence>, past: Past): (v': View) {
    v.(job := v.job.(state := next, revision := v.job.revision + 1, result := result), past := past)
  }

  lemma MoveView(v: View, next: JobState, result: Option<Evidence>, past: Past)
    requires ViewSafe(v) && CanStep(v.job.state, next) && MoveAllowed(v, next, result, past)
    ensures ViewSafe(MovedView(v, next, result, past))
  {
    if IsServiceAction(v.job.operation) {
      ServiceMoveView(v, next, result, past);
    } else {
      StageMoveView(v, next, result, past);
    }
  }

  lemma ServiceMoveView(v: View, next: JobState, result: Option<Evidence>, past: Past)
    requires ViewSafe(v) && CanStep(v.job.state, next) && MoveAllowed(v, next, result, past) && IsServiceAction(v.job.operation)
    ensures ViewSafe(MovedView(v, next, result, past))
  {
    TransitionAdvances(v.job, next, result);
    if v.pc.Some? {
      MovedPc(v, next, result, past, v.pc.value);
    }
    MovedJobSafe(v, next, result, past);
  }

  lemma StageMoveView(v: View, next: JobState, result: Option<Evidence>, past: Past)
    requires ViewSafe(v) && CanStep(v.job.state, next) && MoveAllowed(v, next, result, past) && !IsServiceAction(v.job.operation)
    ensures ViewSafe(MovedView(v, next, result, past))
  {
    MovedJobSafe(v, next, result, past);
    MovedHolder(v, next, result, past);
  }

  lemma MovedPc(v: View, next: JobState, result: Option<Evidence>, past: Past, pc: Pc)
    requires PcSafe(v, pc) && PcKnows(v, pc) && MoveAllowed(v, next, result, past)
    requires JobAdvances(v.job, MovedView(v, next, result, past).job)
    ensures PcSafe(MovedView(v, next, result, past), pc) && PcKnows(MovedView(v, next, result, past), pc)
    ensures pc.Calling? ==> !BeforeCall(v.job.state)
  {
    PcFollows(v, MovedView(v, next, result, past), pc);
  }

  lemma MovedHolder(v: View, next: JobState, result: Option<Evidence>, past: Past)
    requires v.holder ==> HoldsOrEnded(v) && SerializesHostChanges(v.job.operation)
    requires CanStep(v.job.state, next)
    ensures
      var v' := MovedView(v, next, result, past);
      v'.holder ==> HoldsOrEnded(v') && SerializesHostChanges(v'.job.operation)
  {
  }

  lemma MovedJobSafe(v: View, next: JobState, result: Option<Evidence>, past: Past)
    requires JobSafe(v) && CanStep(v.job.state, next) && MoveAllowed(v, next, result, past)
    requires v.holder ==> HoldsOrEnded(v)
    requires IsServiceAction(v.job.operation) && v.pc.Some? && v.pc.value.Calling? ==> !BeforeCall(v.job.state)
    ensures JobSafe(MovedView(v, next, result, past))
  {
  }

  /** A position stays safe when its job ends before the call, or is asked to cancel. */
  lemma PcFollows(v: View, v': View, pc: Pc)
    requires PcSafe(v, pc) && PcKnows(v, pc) && JobAdvances(v.job, v'.job) && v'.owns == v.owns
    requires v'.past == v.past || v'.past == v.past.(invalid := true)
    requires (BeforeCall(v.job.state) && IsTerminal(v'.job.state)) || v'.job == CancelMarked(v.job)
    ensures PcSafe(v', pc) && PcKnows(v', pc)
  {
    PcSafeFollows(v, v', pc);
    PcKnowsFollows(v, v', pc);
  }

  lemma PcSafeFollows(v: View, v': View, pc: Pc)
    requires PcSafe(v, pc) && JobAdvances(v.job, v'.job) && v'.owns == v.owns
    requires IsTerminal(v'.job.state) || v'.job.state == v.job.state
    ensures PcSafe(v', pc)
  {
  }

  lemma PcKnowsFollows(v: View, v': View, pc: Pc)
    requires PcSafe(v, pc) && PcKnows(v, pc) && (v'.past == v.past || v'.past == v.past.(invalid := true))
    requires (BeforeCall(v.job.state) && IsTerminal(v'.job.state)) || v'.job == CancelMarked(v.job)
    ensures PcKnows(v', pc)
  {
  }

  /** A transition by other code, with or without a change of the cancel tasks. */
  lemma MovedIsSafe(s: Host, s': Host, id: JobId, next: JobState, result: Option<Evidence>)
    requires Safe(s) && id in s.db.jobs && CanStep(s.db.jobs[id].state, next)
    requires MoveAllowed(ViewOf(s, id), next, result, PastOf(s', id))
    requires Moves(s, s', id, next, result)
    ensures Safe(s')
  {
    MoveView(ViewOf(s, id), next, result, PastOf(s', id));
    TransitionAdvances(s.db.jobs[id], next, result);
    MovedShape(s, s', id, next, result);
    LocklessStepOf(s, s', id);
  }

  /** One row moved, and at most its history and its cancel task with it. */
  predicate Moves(s: Host, s': Host, id: JobId, next: JobState, result: Option<Evidence>)
    requires id in s.db.jobs
  {
    && s' == s.(db := s'.db, cancels := s'.cancels, pasts := s'.pasts) && s'.db.locks == s.db.locks
    && s'.db.jobs == s.db.jobs[id := MovedView(ViewOf(s, id), next, result, PastOf(s', id)).job]
    && s'.pasts - {id} == s.pasts - {id}
    && forall t :: t in s'.cancels ==> t in s.cancels || (t == CancelRelease(id) && IsTerminal(next))
  }

  lemma MovedShape(s: Host, s': Host, id: JobId, next: JobState, result: Option<Evidence>)
    requires id in s.db.jobs && Moves(s, s', id, next, result)
    ensures OnlyJob(s, s', id) && ViewOf(s', id) == MovedView(ViewOf(s, id), next, result, PastOf(s', id)) && CancelsFrom(s, s')
  {
    assert HostLock(s') == HostLock(s);
  }

  lemma MoveIsSafe(s: Host, id: JobId, expected: nat, next: JobState, result: Option<Evidence>)
    requires Safe(s) && id in s.db.jobs && !IsServiceAction(s.db.jobs[id].operation)
    requires MoveAllowed(ViewOf(s, id), next, result, PastOf(s, id))
    ensures Safe(MoveNext(s, id, expected, next, result))
  {
    if TransitionJob(s.db, id, expected, next, result).Ok? {
      MoveEffect(s, id, expected, next, result);
      MovedIsSafe(s, MoveNext(s, id, expected, next, result), id, next, result);
    }
  }

  lemma MoveEffect(s: Host, id: JobId, expected: nat, next: JobState, result: Option<Evidence>)
    requires id in s.db.jobs && TransitionJob(s.db, id, expected, next, result).Ok?
    ensures
      var s' := MoveNext(s, id, expected, next, result);
      CanStep(s.db.jobs[id].state, next) && Moves(s, s', id, next, result) && s' != s
  {
    TransitionEffect(s.db, id, expected, next, result);
    assert MoveNext(s, id, expected, next, result).db.jobs[id].revision == s.db.jobs[id].revision + 1;
  }

  /** A request that cannot run is refused while it is still queued. */
  lemma RejectIsSafe(s: Host, id: JobId, expected: nat)
    requires Safe(s) && id in s.db.jobs && s.db.jobs[id].state == Queued
    ensures Safe(RejectNext(s, id, expected))
  {
    if TransitionJob(s.db, id, expected, Failed, Some(Refused)).Ok? {
      MoveEffect(s, id, expected, Failed, Some(Refused));
      RejectEffect(s, id, expected);
      RejectView(ViewOf(s, id));
      MovedIsSafe(s, RejectNext(s, id, expected), id, Failed, Some(Refused));
    }
  }

  lemma RejectEffect(s: Host, id: JobId, expected: nat)
    requires id in s.db.jobs && TransitionJob(s.db, id, expected, Failed, Some(Refused)).Ok?
    requires
      var moved := MoveNext(s, id, expected, Failed, Some(Refused));
      Moves(s, moved, id, Failed, Some(Refused)) && moved != s
    ensures Moves(s, RejectNext(s, id, expected), id, Failed, Some(Refused))
    ensures PastOf(RejectNext(s, id, expected), id) == PastOf(s, id).(invalid := true)
  {
    var moved := MoveNext(s, id, expected, Failed, Some(Refused));
    PastShape(moved, id, PastOf(s, id).(invalid := true));
  }

  lemma RejectView(v: View)
    requires ViewSafe(v) && v.job.state == Queued
    ensures MoveAllowed(v, Failed, Some(Refused), v.past.(invalid := true))
  {
  }

  lemma CancelView(v: View, early: bool)
    requires ViewSafe(v) && !IsTerminal(v.job.state)
    requires early ==> v.early || BeforeCall(v.job.state) || !IsServiceAction(v.job.operation)
    ensures ViewSafe(v.(job := v.job.(cancelRequested := true, revision := v.job.revision + 1), early := early))
  {
    CancelAdvances(v.job);
    if v.pc.Some? {
      PcFollows(v, v.(job := v.job.(cancelRequested := true, revision := v.job.revision + 1), early := early), v.pc.value);
    }
  }

  lemma CancelIsSafe(s: Host, id: JobId, expected: nat, reason: string)
    requires Safe(s)
    ensures Safe(CancelNext(s, id, expected, reason))
  {
    if RequestCancel(s.db, id, expected, reason).Ok? {
      var s' := CancelNext(s, id, expected, reason);
      CancelShape(s, id, expected, reason);
      CancelView(ViewOf(s, id), id in s'.early);
      CancelAdvances(s.db.jobs[id]);
      assert s'.db.jobs[id] == ViewOf(s', id).job;
      LocklessStepOf(s, s', id);
    }
  }

  lemma CancelShape(s: Host, id: JobId, expected: nat, reason: string)
    requires RequestCancel(s.db, id, expected, reason).Ok?
    ensures
      var s' := CancelNext(s, id, expected, reason);
      && id in s.db.jobs && !IsTerminal(s.db.jobs[id].state) && s'.db.locks == s.db.locks && OnlyJob(s, s', id)
      && CancelsFrom(s, s')
      && ViewOf(s', id) == ViewOf(s, id).(
           job := s.db.jobs[id].(cancelRequested := true, revision := s.db.jobs[id].revision + 1), early := id in s'.early)
      && (id in s'.early ==>
            id in s.early || BeforeCall(s.db.jobs[id].state) || !IsServiceAction(s.db.jobs[id].operation))
  {
    CancelEffect(s.db, id, expected, reason);
    var s' := CancelNext(s, id, expected, reason);
    JobAdvancesSelf(s'.db.jobs[id]);
    assert s'.early - {id} == s.early - {id};
  }

  lemma FewerCancels(s: Host, cancels: set<CancelTask>)
    requires Safe(s) && cancels <= s.cancels
    ensures Safe(s.(cancels := cancels))
  {
    var s' := s.(cancels := cancels);
    forall id | id in s'.db.jobs ensures ViewSafe(ViewOf(s', id)) {
      assert ViewOf(s', id) == ViewOf(s, id);
    }
  }

  lemma FinishCancelIsSafe(s: Host, task: CancelTask)
    requires Safe(s) && task in s.cancels
    ensures Safe(FinishCancelNext(s, task))
  {
    match task
    case CancelCommit(id, job) => CancelCommitIsSafe(s, id, job);
    case CancelRelease(id) =>
      ReleaseIsSafe(s, id);
      FewerCancels(s.(db := Release(s.db, HostLock(s), id)), s.cancels - {task});
  }

  lemma CancelCommitIsSafe(s: Host, id: JobId, job: Job)
    requires Safe(s) && CancelCommit(id, job) in s.cancels
    ensures Safe(FinishCancelNext(s, CancelCommit(id, job)))
  {
    var s' := FinishCancelNext(s, CancelCommit(id, job));
    assert CancelSafe(s.db.jobs, CancelCommit(id, job));
    if TransitionJob(s.db, id, job.revision, Cancelled, Some(NotStarted)).Ok? {
      assert ViewSafe(ViewOf(s, id));
      CancelCommitEffect(s, id, job);
      MovedIsSafe(s, s', id, Cancelled, Some(NotStarted));
    } else {
      FewerCancels(s, s.cancels - {CancelCommit(id, job)});
    }
  }

  /** The commit started from the copy, so the job is still where the cancel found it. */
  lemma CancelCommitEffect(s: Host, id: JobId, job: Job)
    requires CancelSafe(s.db.jobs, CancelCommit(id, job)) && ViewSafe(ViewOf(s, id))
    requires TransitionJob(s.db, id, job.revision, Cancelled, Some(NotStarted)).Ok?
    ensures
      var s' := FinishCancelNext(s, CancelCommit(id, job));
      && CanStep(s.db.jobs[id].state, Cancelled) && MoveAllowed(ViewOf(s, id), Cancelled, Some(NotStarted), PastOf(s', id))
      && Moves(s, s', id, Cancelled, Some(NotStarted))
  {
    TransitionEffect(s.db, id, job.revision, Cancelled, Some(NotStarted));
  }

  lemma NewHolderIsSafe(s: Host, id: JobId)
    requires Safe(s) && id in s.db.jobs && Owns(s, id) && SerializesHostChanges(s.db.jobs[id].operation)
    ensures Safe(s.(holders := s.holders + {id}))
  {
    var s' := s.(holders := s.holders + {id});
    assert s'.db.jobs == s.db.jobs[id := s'.db.jobs[id]];
    JobAdvancesSelf(s.db.jobs[id]);
    HolderView(ViewOf(s, id));
    LocklessStepOf(s, s', id);
  }

  lemma HolderView(v: View)
    requires ViewSafe(v) && v.owns && SerializesHostChanges(v.job.operation)
    ensures ViewSafe(v.(holder := true))
  {
    if v.pc.Some? {
      assert PcSafe(v, v.pc.value) && PcKnows(v, v.pc.value);
    }
  }

  lemma CommandAcquireIsSafe(s: Host, id: JobId)
    requires Safe(s) && id in s.db.jobs && SerializesHostChanges(s.db.jobs[id].operation)
    ensures Safe(CommandAcquireNext(s, id))
  {
    var a := TryAcquire(s.db, HostLock(s), id);
    if a.Ok? {
      AcquireIsSafe(s, id);
      if a.value.acquired {
        NewHolderIsSafe(s.(db := a.value.db), id);
      }
    }
  }

  lemma CrashIsSafe(s: Host)
    requires Safe(s)
    ensures Safe(s.(workers := map[], holders := {}, cancels := {}, pasts := Disturb(s)))
  {
    var s' := s.(workers := map[], holders := {}, cancels := {}, pasts := Disturb(s));
    forall id | id in s'.db.jobs ensures ViewSafe(ViewOf(s', id)) {
      var v := ViewOf(s, id);
      assert ViewOf(s', id) == v.(pc := None, holder := false, past := CrashedPast(v));
      CrashedView(v);
    }
  }

  function CrashedPast(v: View): (past: Past) { if v.pc.Some? then v.past.(disturbed := true) else v.past }

  lemma CrashedView(v: View)
    requires ViewSafe(v)
    ensures ViewSafe(v.(pc := None, holder := false, past := CrashedPast(v)))
  {
  }

  lemma SpawnIsSafe(s: Host, id: JobId)
    requires Safe(s) && id in s.db.jobs && IsServiceAction(s.db.jobs[id].operation) && id !in s.workers
    ensures Safe(SetPc(s, id, Some(Starting)))
  {
    assert ViewSafe(ViewOf(s, id));
    PcMoveIsSafe(s, id, Some(Starting));
  }

  /** Steps outside the service workers that move a job. */
  lemma CommandStepIsSafe(s: Host, step: Step)
    requires Safe(s) && (step.RejectInvalid? || step.CommandDispatch? || step.CommandMove?)
    ensures Safe(Next(s, step))
  {
    if Next(s, step) != s {
      match step
      case RejectInvalid(id, expected) => RejectIsSafe(s, id, expected);
      case CommandDispatch(id, expected) =>
        DispatchIsSafe(s, id, expected);
      case CommandMove(id, expected, next, result) => MoveIsSafe(s, id, expected, next, result);
    }
  }

  lemma DispatchIsSafe(s: Host, id: JobId, expected: nat)
    requires Safe(s) && id in s.holders
    ensures Safe(MoveNext(s, id, expected, Dispatching, None))
  {
    assert id in s.db.jobs by { assert id !in s.db.jobs ==> Absent(s, id); }
    assert ViewSafe(ViewOf(s, id));
    MoveIsSafe(s, id, expected, Dispatching, None);
  }

  lemma NextIsSafe(s: Host, step: Step)
    requires Safe(s)
    ensures Safe(Next(s, step))
  {
    if step.RejectInvalid? || step.CommandDispatch? || step.CommandMove? {
      CommandStepIsSafe(s, step);
    } else if Next(s, step) != s {
      match step
      case Accept(id, request) => AcceptIsSafe(s, id, request);
      case Spawn(id) => SpawnIsSafe(s, id);
      case Work(id, choice) => WorkIsSafe(s, id, choice);
      case RequestCancelOf(id, expected, reason) => CancelIsSafe(s, id, expected, reason);
      case FinishCancel(task) => FinishCancelIsSafe(s, task);
      case CommandAcquire(id) => CommandAcquireIsSafe(s, id);
      case ReleaseTerminal(id) => ReleaseIsSafe(s, id);
      case Crash => CrashIsSafe(s);
    }
  }

  lemma {:induction false} RunIsSafe(s: Host, steps: seq<Step>)
    requires Safe(s)
    ensures Safe(RunSteps(s, steps))
    decreases |steps|
  {
    if steps != [] {
      NextIsSafe(s, steps[0]);
      RunIsSafe(Next(s, steps[0]), steps[1..]);
    }
  }

  // ---------------------------------------------------------------- theorems

  /**
   Over any run of submissions, resubmissions, cancels, worker errors and
   restarts, the systemd call of a service job is made at most once, never for a
   job cancelled while it was Queued or Dispatching, and never for a job whose
   recorded effect is "not started".
   */
  lemma AtMostOneCall(s: Host, steps: seq<Step>, id: JobId)
    requires Initial(s)
    requires id in RunSteps(s, steps).db.jobs && IsServiceAction(RunSteps(s, steps).db.jobs[id].operation)
    ensures
      var end := RunSteps(s, steps);
      && end.issued[id] <= 1
      && (id in end.early ==> end.issued[id] == 0)
      && (end.db.jobs[id].result == Some(NotStarted) ==> end.issued[id] == 0)
      && (end.db.jobs[id].state == Queued || end.db.jobs[id].state == Dispatching ==> end.issued[id] == 0)
  {
    RunIsSafe(s, steps);
    assert ViewSafe(ViewOf(RunSteps(s, steps), id));
  }

  /**
   Over any run, every outcome of a service job is explained by what systemd and
   the unit showed: a job succeeds only on an observed effect, a job ended by an
   observation succeeds if and only if it was positive, an unobserved failure is
   a rejected call, a stale baseline, a refused request or a disturbed job that
   never called, a timeout passed its deadline before the call, and an
   undisturbed job ends exactly as its call was answered.
   */
  lemma OutcomesAreExplained(s: Host, steps: seq<Step>, id: JobId)
    requires Initial(s)
    requires id in RunSteps(s, steps).db.jobs && IsServiceAction(RunSteps(s, steps).db.jobs[id].operation)
    ensures
      var end := RunSteps(s, steps);
      var job, past := end.db.jobs[id], PastOf(end, id);
      && Explained(job, past)
      && (job.state == Succeeded ==> past.observed == Some(true))
      && (job.result.Some? && job.result.value.Finished? ==>
            past.observed.Some? && (job.state == Succeeded <==> past.observed.value) && (job.state == Failed <==> !past.observed.value))
      && (!past.disturbed && !job.cancelRequested && IsTerminal(job.state) ==> EndsAsAnswered(job, past))
  {
    RunIsSafe(s, steps);
    assert ViewSafe(ViewOf(RunSteps(s, steps), id));
  }

  /** A fault right after a rejected call loses the answer: the job ends as unknown, not as failed. */
  lemma RejectionCanBeLost(s: Host, id: JobId, job: Job)
    requires id in s.workers && id in s.db.jobs && s.workers[id] == Called(job, Rejected)
    requires s.db.jobs[id] == job && job.state == Running
    ensures
      var end := RunSteps(s, [Work(id, Fault), Work(id, Proceed), Work(id, Proceed), Work(id, Proceed)]);
      id in end.db.jobs && end.db.jobs[id].state == OutcomeUnknown && PastOf(end, id).answered == PastOf(s, id).answered
  {
    var a := Next(s, Work(id, Fault));
    ErrsFrom(s, id);
    ErringReads(a, id);
    var b := Next(a, Work(id, Proceed));
    ErringMoves(b, id, job);
    ErringMoves(Next(b, Work(id, Proceed)), id, Next(b, Work(id, Proceed)).db.jobs[id]);
    FourSteps(s, Work(id, Fault), Work(id, Proceed), Work(id, Proceed), Work(id, Proceed));
  }

  lemma ErrsFrom(s: Host, id: JobId)
    requires id in s.workers && id in s.db.jobs && !s.workers[id].ErringCopy?
    ensures
      var s' := Next(s, Work(id, Fault));
      && s'.db == s.db && id in s'.workers && s'.workers[id] == Erring && PastOf(s', id).answered == PastOf(s, id).answered
  {
  }

  lemma ErringReads(s: Host, id: JobId)
    requires id in s.workers && id in s.db.jobs && s.workers[id] == Erring
    ensures
      var s' := Next(s, Work(id, Proceed));
      && s'.db == s.db && id in s'.workers && s'.workers[id] == ErringCopy(s.db.jobs[id])
      && PastOf(s', id).answered == PastOf(s, id).answered
  {
  }

  /** The error path from a current copy of a started job. */
  lemma ErringMoves(s: Host, id: JobId, job: Job)
    requires id in s.workers && id in s.db.jobs && s.workers[id] == ErringCopy(job) && s.db.jobs[id] == job
    requires job.state == Running || job.state == Reconciling
    ensures
      var s' := Next(s, Work(id, Proceed));
      && id in s'.db.jobs && PastOf(s', id).answered == PastOf(s, id).answered
      && s'.db.jobs[id].state == (if job.state == Running then Reconciling else OutcomeUnknown)
      && (job.state == Running ==> id in s'.workers && s'.workers[id] == ErringCopy(s'.db.jobs[id]))
  {
    var a := Decide(ErringCopy(job), Proceed);
    assert TransitionJob(s.db, id, job.revision, a.next, a.result).Ok?;
    TransitionEffect(s.db, id, job.revision, a.next, a.result);
  }

  lemma FourSteps(s: Host, a: Step, b: Step, c: Step, d: Step)
    ensures RunSteps(s, [a, b, c, d]) == Next(Next(Next(Next(s, a), b), c), d)
  {
    assert [a, b, c, d][1..] == [b, c, d] && [b, c, d][1..] == [c, d] && [c, d][1..] == [d] && [d][1..] == [];
    var s1 := Next(s, a);
    var s2 := Next(s1, b);
    assert RunSteps(s2, [c, d]) == RunSteps(Next(s2, c), [d]);
  }

  const HOST_CHANGING: set<Operation> :=
    {UnitStart, UnitStop, UnitRestart, UnitReload, DeployActivate, DeployVerify, DeployRollback}

  /**
   At every reachable state at most one service action or deployment activation,
   verification or rollback of the host is Dispatching, Running or Reconciling,
   and it owns the durable host lock.
   */
  lemma HostSerialization(s: Host, steps: seq<Step>, i: JobId, j: JobId)
    requires Initial(s)
    requires
      var end := RunSteps(s, steps);
      && i in end.db.jobs && end.db.jobs[i].operation in HOST_CHANGING && IsActive(end.db.jobs[i].state)
      && j in end.db.jobs && end.db.jobs[j].operation in HOST_CHANGING && IsActive(end.db.jobs[j].state)
    ensures i == j && Owns(RunSteps(s, steps), i)
  {
    RunIsSafe(s, steps);
    ActiveOwns(RunSteps(s, steps), i);
    ActiveOwns(RunSteps(s, steps), j);
  }

  lemma ActiveOwns(s: Host, id: JobId)
    requires Safe(s) && id in s.db.jobs && s.db.jobs[id].operation in HOST_CHANGING && IsActive(s.db.jobs[id].state)
    ensures Owns(s, id)
  {
    assert JobSafe(ViewOf(s, id));
  }

  /** Outside acquiring and releasing, a worker step leaves every lock alone. */
  lemma WorkKeepsLocks(s: Host, id: JobId, pc: Pc, a: Action)
    requires id in s.db.jobs && !a.Acquire? && !a.Free?
    ensures Perform(s, id, pc, a).db.locks == s.db.locks && Perform(s, id, pc, a).name == s.name
  {
  }

  lemma WorkSparesLock(s: Host, w: JobId, a: Action, id: JobId)
    requires LiveOwner(s, id) && LocksLinked(s.db.locks, s.db.jobs)
    requires w in s.workers && w in s.db.jobs && (a.Free? ==> IsTerminal(s.db.jobs[w].state))
    ensures Owns(Perform(s, w, s.workers[w], a), id)
  {
    if a.Acquire? {
      AcquireSparesLock(s, w, id);
    } else if !a.Free? {
      WorkKeepsLocks(s, w, s.workers[w], a);
    }
  }

  lemma AcquireSparesLock(s: Host, w: JobId, id: JobId)
    requires LiveOwner(s, id)
    ensures Owns(s.(db := AfterAcquire(s.db, HostLock(s), w)), id)
    ensures w in s.db.jobs ==> Owns(AcquireNext(s, w), id)
    ensures Owns(CommandAcquireNext(s, w), id)
  {
    if TryAcquire(s.db, HostLock(s), w).Ok? {
      AcquireEffect(s.db, HostLock(s), w);
    }
  }

  predicate LiveOwner(s: Host, id: JobId) {
    id in s.db.jobs && Owns(s, id) && !IsTerminal(s.db.jobs[id].state)
  }

  lemma WorkerSparesLock(s: Host, w: JobId, choice: Choice, id: JobId)
    requires LiveOwner(s, id) && LocksLinked(s.db.locks, s.db.jobs)
    requires w in s.workers && w in s.db.jobs && ViewSafe(ViewOf(s, w))
    ensures Owns(Next(s, Work(w, choice)), id)
  {
    FreesOnlyEnded(ViewOf(s, w), s.workers[w], choice);
    WorkSparesLock(Noted(s, w, choice), w, Decide(s.workers[w], choice), id);
  }

  lemma FreesOnlyEnded(v: View, pc: Pc, choice: Choice)
    requires ViewSafe(v) && v.pc == Some(pc)
    ensures Decide(pc, choice).Free? ==> IsTerminal(v.job.state)
  {
    assert PcSafe(v, pc);
  }

  /** Locks move only by an acquisition, which spares live owners, or a release by an ended owner. */
  lemma LockSurvives(s: Host, step: Step, id: JobId)
    requires Safe(s) && LiveOwner(s, id)
    ensures Owns(Next(s, step), id)
  {
    if step.Work? && step.id in s.workers && step.id in s.db.jobs {
      WorkerSparesLock(s, step.id, step.choice, id);
    } else if !step.Work? {
      assert step.FinishCancel? && step.task in s.cancels ==> CancelSafe(s.db.jobs, step.task);
      OtherStepSparesLock(s, step, id);
    }
  }

  lemma OtherStepSparesLock(s: Host, step: Step, id: JobId)
    requires LiveOwner(s, id) && !step.Work?
    requires step.FinishCancel? && step.task in s.cancels ==> CancelSafe(s.db.jobs, step.task)
    ensures Owns(Next(s, step), id)
  {
    match step
    case FinishCancel(task) =>
      if task in s.cancels {
        FinishCancelSparesLock(s, task, id);
      }
    case CommandAcquire(a) => AcquireSparesLock(s, a, id);
    case ReleaseTerminal(t) =>
    case _ => PlainStepKeepsLocks(s, step);
  }

  lemma FinishCancelSparesLock(s: Host, task: CancelTask, id: JobId)
    requires LiveOwner(s, id) && CancelSafe(s.db.jobs, task)
    ensures Owns(FinishCancelNext(s, task), id)
  {
  }

  lemma PlainStepKeepsLocks(s: Host, step: Step)
    requires !step.Work? && !step.FinishCancel? && !step.CommandAcquire? && !step.ReleaseTerminal?
    ensures Next(s, step).db.locks == s.db.locks && Next(s, step).name == s.name
  {
    if step.RequestCancelOf? {
      CancelKeepsLocks(s, step.id, step.expected, step.reason);
    }
  }

  lemma CancelKeepsLocks(s: Host, id: JobId, expected: nat, reason: string)
    ensures CancelNext(s, id, expected, reason).db.locks == s.db.locks && CancelNext(s, id, expected, reason).name == s.name
  {
    if RequestCancel(s.db, id, expected, reason).Ok? {
      CancelEffect(s.db, id, expected, reason);
    }
  }

  /** No step of any worker takes the host lock from a live job. */
  lemma LiveOwnerKeepsLock(s: Host, steps: seq<Step>, step: Step, id: JobId)
    requires Initial(s)
    requires
      var mid := RunSteps(s, steps);
      id in mid.db.jobs && Owns(mid, id) && !IsTerminal(mid.db.jobs[id].state)
    ensures Owns(Next(RunSteps(s, steps), step), id)
  {
    RunIsSafe(s, steps);
    LockSurvives(RunSteps(s, steps), step, id);
  }
}
