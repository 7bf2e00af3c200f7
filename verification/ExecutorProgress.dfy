/**
 The course of one service job whose worker nothing disturbs: from every
 reachable state it takes the host lock, calls systemd once, ends by what systemd
 and the unit answered, and gives the lock back; and a cancel that comes before
 the call ends it.
 */
module ExecutorProgress {
  import opened Wrappers
  import opened Jobs
  import opened StoreModel
  import opened StoreProofs
  import opened StoreAnswers
  import opened Executor
  import opened Utf8

  /** Where a job and its worker are. */
  datatype Spot = Spot(job: Job, pc: Option<Pc>, owns: bool, calls: nat)

  predicate At(s: Host, id: JobId, spot: Spot) {
    && s.name != [] && id in s.db.jobs && s.db.jobs[id] == spot.job
    && (if spot.pc.Some? then id in s.workers && s.workers[id] == spot.pc.value else id !in s.workers)
    && Owns(s, id) == spot.owns && s.issued[id] == spot.calls
  }

  /** Everything but the host lock, the worker's position and the history of the job stays. */
  predicate Untouched(s: Host, s': Host) {
    s'.name == s.name && s'.cancels == s.cancels && s'.early == s.early && s'.holders == s.holders
  }

  // ---------------------------------------------------------------- single steps

  function After(job: Job, next: JobState, result: Option<Evidence>): (r: Job) {
    job.(state := next, revision := job.revision + 1, result := result)
  }

  lemma Commits(s: Host, id: JobId, spot: Spot, choice: Choice)
    requires At(s, id, spot) && spot.pc.Some?
    requires
      var a := Decide(spot.pc.value, choice);
      a.CommitTo? && a.job == spot.job && CanStep(spot.job.state, a.next)
    ensures
      var a := Decide(spot.pc.value, choice);
      var job := After(spot.job, a.next, a.result);
      At(Next(s, Work(id, choice)), id, Spot(job, AfterPc(a.after, job), spot.owns, spot.calls))
    ensures Untouched(s, Next(s, Work(id, choice)))
  {
    var a := Decide(spot.pc.value, choice);
    TransitionExactly(s.db, id, a.job.revision, a.next, a.result);
  }

  lemma Goes(s: Host, id: JobId, spot: Spot, choice: Choice)
    requires At(s, id, spot) && spot.pc.Some? && Decide(spot.pc.value, choice).Go?
    ensures At(Next(s, Work(id, choice)), id, spot.(pc := Some(Decide(spot.pc.value, choice).pc)))
    ensures Untouched(s, Next(s, Work(id, choice)))
  {
  }

  lemma Reads(s: Host, id: JobId, spot: Spot, choice: Choice)
    requires At(s, id, spot) && spot.pc.Some? && Decide(spot.pc.value, choice) == Read
    ensures At(Next(s, Work(id, choice)), id, spot.(pc := Some(CopyPc(spot.pc.value, spot.job))))
    ensures Untouched(s, Next(s, Work(id, choice)))
  {
  }

  lemma Acquires(s: Host, id: JobId, spot: Spot)
    requires LocksLinked(s.db.locks, s.db.jobs) && At(s, id, spot) && spot.pc == Some(Starting)
    ensures
      var free := spot.owns || Vacant(s.db, HostLock(s));
      At(Next(s, Work(id, Proceed)), id, spot.(pc := Some(if free then Acquired else Queueing), owns := free))
    ensures Untouched(s, Next(s, Work(id, Proceed)))
  {
    LockIsTaken(s.db, HostLock(s), id);
  }

  lemma LockIsTaken(db: Db, r: Resource, id: JobId)
    requires LocksLinked(db.locks, db.jobs) && r.kind != [] && r.key != [] && id in db.jobs
    ensures
      var a := TryAcquire(db, r, id);
      && a.Ok? && a.value.acquired == (HeldBy(db, r, id) || Vacant(db, r))
      && HeldBy(a.value.db, r, id) == a.value.acquired && a.value.db.jobs == db.jobs
  {
  }

  lemma Calls(s: Host, id: JobId, spot: Spot, outcome: CallOutcome)
    requires At(s, id, spot) && spot.pc == Some(Calling(spot.job))
    ensures
      At(Next(s, Work(id, CallReturns(outcome))), id,
         spot.(pc := Some(Called(spot.job, outcome)), calls := spot.calls + 1))
    ensures Untouched(s, Next(s, Work(id, CallReturns(outcome))))
  {
  }

  lemma Looks(s: Host, id: JobId, spot: Spot, effect: bool)
    requires At(s, id, spot) && spot.pc == Some(Watching(spot.job)) && spot.job.result == Some(Progress(true))
    ensures At(Next(s, Work(id, Observed(effect))), id, spot.(pc := Some(Seen(spot.job, effect))))
    ensures Untouched(s, Next(s, Work(id, Observed(effect))))
  {
  }

  lemma Frees(s: Host, id: JobId, spot: Spot)
    requires At(s, id, spot) && spot.pc == Some(Releasing)
    ensures At(Next(s, Work(id, Proceed)), id, spot.(pc := None, owns := false))
    ensures Untouched(s, Next(s, Work(id, Proceed)))
  {
  }

  // ---------------------------------------------------------------- the whole course

  /** What the environment answers: to the call, and if that was accepted to the observation, if one was made in time. */
  datatype Answer = Answer(outcome: CallOutcome, effect: Option<bool>)

  /** The steps of an undisturbed worker. */
  function Course(id: JobId, answer: Answer): (steps: seq<Step>) {
    Opening(id) + [Work(id, Proceed), Work(id, CallReturns(answer.outcome))] + ([Work(id, Proceed)] + Ending(id, answer))
  }

  function Ending(id: JobId, answer: Answer): (steps: seq<Step>) {
    match answer.outcome
    case Rejected => [Work(id, Proceed)]
    case AcknowledgementLost => [Work(id, Proceed), Work(id, Proceed)]
    case Accepted =>
      if answer.effect.Some? then [Work(id, Observed(answer.effect.value)), Work(id, Proceed), Work(id, Proceed)]
      else [Work(id, Proceed), Work(id, Proceed), Work(id, Proceed)]
  }

  /** How the job ends. */
  predicate EndsBy(answer: Answer, job: Job) {
    match answer.outcome
    case Rejected => job.state == Failed && job.result == Some(Refused)
    case AcknowledgementLost => job.state == OutcomeUnknown && job.result == Some(EffectUnknown)
    case Accepted =>
      match answer.effect
      case None => job.state == OutcomeUnknown && job.result == Some(EffectUnknown)
      case Some(true) => job.state == Succeeded && job.result == Some(Finished(true))
      case Some(false) => job.state == Failed && job.result == Some(Finished(false))
  }

  lemma {:induction false} RunTogether(s: Host, a: seq<Step>, b: seq<Step>)
    ensures RunSteps(s, a + b) == RunSteps(RunSteps(s, a), b)
    decreases |a|
  {
    if a == [] {
      assert a + b == b;
    } else {
      assert (a + b)[1..] == a[1..] + b;
      RunTogether(Next(s, a[0]), a[1..], b);
    }
  }

  lemma RunFirst(s: Host, steps: seq<Step>)
    requires steps != []
    ensures RunSteps(s, steps) == RunSteps(Next(s, steps[0]), steps[1..])
  {
  }

  /** From the queue to the answer of the call. */
  lemma StartsAndCalls(s: Host, id: JobId, job: Job, calls: nat, outcome: CallOutcome)
    requires LocksLinked(s.db.locks, s.db.jobs) && At(s, id, Spot(job, None, Owns(s, id), calls))
    requires IsServiceAction(job.operation) && job.state == Queued && !job.cancelRequested
    requires Owns(s, id) || Vacant(s.db, HostLock(s))
    ensures
      var running := After(Dispatched(job), Running, Some(Progress(false)));
      At(RunSteps(s, Opening(id) + [Work(id, Proceed), Work(id, CallReturns(outcome))]), id,
         Spot(running, Some(Called(running, outcome)), true, calls + 1))
  {
    TakesLock(s, id, job, calls);
    CallsOnce(RunSteps(s, Opening(id)), id, Dispatched(job), calls, outcome);
    RunTogether(s, Opening(id), [Work(id, Proceed), Work(id, CallReturns(outcome))]);
  }

  function Dispatched(job: Job): (r: Job) { After(job, Dispatching, Some(Progress(false))) }

  /** The worker starts, takes the lock, reads the record and dispatches it. */
  function Opening(id: JobId): (steps: seq<Step>) {
    [Spawn(id), Work(id, Proceed), Work(id, Proceed), Work(id, Proceed)]
  }

  lemma TakesLock(s: Host, id: JobId, job: Job, calls: nat)
    requires LocksLinked(s.db.locks, s.db.jobs) && At(s, id, Spot(job, None, Owns(s, id), calls))
    requires IsServiceAction(job.operation) && job.state == Queued && !job.cancelRequested
    requires Owns(s, id) || Vacant(s.db, HostLock(s))
    ensures At(RunSteps(s, Opening(id)), id, Spot(Dispatched(job), Some(Launching(Dispatched(job))), true, calls))
  {
    var w := Work(id, Proceed);
    var s1 := Next(s, Spawn(id));
    Spawns(s, id, job, calls);
    Acquires(s1, id, Spot(job, Some(Starting), Owns(s, id), calls));
    Dispatches(Next(s1, w), id, job, calls);
    assert Opening(id) == [Spawn(id)] + ([w] + [w, w]);
    RunFirst(s, Opening(id));
    RunFirst(s1, [w, w, w]);
  }

  lemma Dispatches(s: Host, id: JobId, job: Job, calls: nat)
    requires At(s, id, Spot(job, Some(Acquired), true, calls)) && job.state == Queued && !job.cancelRequested
    ensures
      At(RunSteps(s, [Work(id, Proceed), Work(id, Proceed)]), id,
         Spot(Dispatched(job), Some(Launching(Dispatched(job))), true, calls))
  {
    var w := Work(id, Proceed);
    Reads(s, id, Spot(job, Some(Acquired), true, calls), Proceed);
    Commits(Next(s, w), id, Spot(job, Some(Holding(job)), true, calls), Proceed);
    RunFirst(s, [w, w]);
    RunFirst(Next(s, w), [w]);
  }

  lemma Spawns(s: Host, id: JobId, job: Job, calls: nat)
    requires At(s, id, Spot(job, None, Owns(s, id), calls)) && IsServiceAction(job.operation)
    ensures
      var s1 := Next(s, Spawn(id));
      s1 == s.(workers := s1.workers) && At(s1, id, Spot(job, Some(Starting), Owns(s, id), calls))
  {
  }

  lemma CallsOnce(s: Host, id: JobId, job: Job, calls: nat, outcome: CallOutcome)
    requires At(s, id, Spot(job, Some(Launching(job)), true, calls)) && job.state == Dispatching
    ensures
      var running := After(job, Running, Some(Progress(false)));
      At(RunSteps(s, [Work(id, Proceed), Work(id, CallReturns(outcome))]), id,
         Spot(running, Some(Called(running, outcome)), true, calls + 1))
  {
    var running := After(job, Running, Some(Progress(false)));
    Commits(s, id, Spot(job, Some(Launching(job)), true, calls), Proceed);
    var s1 := Next(s, Work(id, Proceed));
    Calls(s1, id, Spot(running, Some(Calling(running)), true, calls), outcome);
    RunFirst(s, [Work(id, Proceed), Work(id, CallReturns(outcome))]);
    RunFirst(s1, [Work(id, CallReturns(outcome))]);
  }

  /** From the answer of the call to the end. */
  lemma EndsAsAnsweredBy(s: Host, id: JobId, job: Job, calls: nat, answer: Answer)
    requires At(s, id, Spot(job, Some(Called(job, answer.outcome)), true, calls)) && job.state == Running
    ensures Ended(RunSteps(s, [Work(id, Proceed)] + Ending(id, answer)), id, calls, answer)
  {
    RunFirst(s, [Work(id, Proceed)] + Ending(id, answer));
    Commits(s, id, Spot(job, Some(Called(job, answer.outcome)), true, calls), Proceed);
    var s1 := Next(s, Work(id, Proceed));
    match answer.outcome
    case Rejected => EndsRejected(s1, id, After(job, Failed, Some(Refused)), calls, answer);
    case AcknowledgementLost => GivesUp(s1, id, After(job, Reconciling, Some(Progress(false))), calls);
    case Accepted => EndsAccepted(s1, id, After(job, Reconciling, Some(Progress(true))), calls, answer);
  }

  /** The job ended by the answers, its worker is gone and the lock is free of it. */
  predicate Ended(s: Host, id: JobId, calls: nat, answer: Answer) {
    id in s.db.jobs && EndsBy(answer, s.db.jobs[id]) && At(s, id, Spot(s.db.jobs[id], None, false, calls))
  }

  lemma EndsRejected(s: Host, id: JobId, job: Job, calls: nat, answer: Answer)
    requires At(s, id, Spot(job, Some(Releasing), true, calls)) && EndsBy(answer, job)
    ensures Ended(RunSteps(s, [Work(id, Proceed)]), id, calls, answer)
  {
    Frees(s, id, Spot(job, Some(Releasing), true, calls));
    RunFirst(s, [Work(id, Proceed)]);
  }

  lemma EndsAccepted(s: Host, id: JobId, job: Job, calls: nat, answer: Answer)
    requires At(s, id, Spot(job, Some(Watching(job)), true, calls)) && answer.outcome == Accepted
    requires job.state == Reconciling && job.result == Some(Progress(true))
    ensures Ended(RunSteps(s, Ending(id, answer)), id, calls, answer)
  {
    var w := Work(id, Proceed);
    if answer.effect.Some? {
      Concludes(s, id, job, calls, answer.effect.value);
    } else {
      Goes(s, id, Spot(job, Some(Watching(job)), true, calls), Proceed);
      RunFirst(s, [w, w, w]);
      GivesUp(Next(s, w), id, job, calls);
    }
  }

  lemma GivesUp(s: Host, id: JobId, job: Job, calls: nat)
    requires At(s, id, Spot(job, Some(GivingUp(job)), true, calls)) && job.state == Reconciling
    ensures
      var end := RunSteps(s, [Work(id, Proceed), Work(id, Proceed)]);
      && At(end, id, Spot(After(job, OutcomeUnknown, Some(EffectUnknown)), None, false, calls))
  {
    var w := Work(id, Proceed);
    Commits(s, id, Spot(job, Some(GivingUp(job)), true, calls), Proceed);
    Frees(Next(s, w), id, Spot(After(job, OutcomeUnknown, Some(EffectUnknown)), Some(Releasing), true, calls));
    RunFirst(s, [w, w]);
    RunFirst(Next(s, w), [w]);
  }

  lemma Concludes(s: Host, id: JobId, job: Job, calls: nat, effect: bool)
    requires At(s, id, Spot(job, Some(Watching(job)), true, calls))
    requires job.state == Reconciling && job.result == Some(Progress(true))
    ensures
      var end := RunSteps(s, [Work(id, Observed(effect)), Work(id, Proceed), Work(id, Proceed)]);
      At(end, id, Spot(After(job, if effect then Succeeded else Failed, Some(Finished(effect))), None, false, calls))
  {
    Looks(s, id, Spot(job, Some(Watching(job)), true, calls), effect);
    RunFirst(s, [Work(id, Observed(effect)), Work(id, Proceed), Work(id, Proceed)]);
    Reports(Next(s, Work(id, Observed(effect))), id, job, calls, effect);
  }

  lemma Reports(s: Host, id: JobId, job: Job, calls: nat, effect: bool)
    requires At(s, id, Spot(job, Some(Seen(job, effect)), true, calls)) && job.state == Reconciling
    ensures
      var end := RunSteps(s, [Work(id, Proceed), Work(id, Proceed)]);
      At(end, id, Spot(After(job, if effect then Succeeded else Failed, Some(Finished(effect))), None, false, calls))
  {
    var w := Work(id, Proceed);
    Commits(s, id, Spot(job, Some(Seen(job, effect)), true, calls), Proceed);
    var done := After(job, if effect then Succeeded else Failed, Some(Finished(effect)));
    Frees(Next(s, w), id, Spot(done, Some(Releasing), true, calls));
    RunFirst(s, [w, w]);
    RunFirst(Next(s, w), [w]);
  }

  /**
   From any reachable state, a queued service job that was not cancelled, while
   the lock is vacant, goes its whole course: one call, the ending that the answers
   call for, and the lock free again.
   */
  lemma ServiceJobCompletes(s: Host, steps: seq<Step>, id: JobId, answer: Answer)
    requires Initial(s)
    requires
      var mid := RunSteps(s, steps);
      && id in mid.db.jobs && id !in mid.workers && IsServiceAction(mid.db.jobs[id].operation)
      && mid.db.jobs[id].state == Queued && !mid.db.jobs[id].cancelRequested
      && (Owns(mid, id) || Vacant(mid.db, HostLock(mid)))
    ensures
      var mid := RunSteps(s, steps);
      var end := RunSteps(mid, Course(id, answer));
      && id in end.db.jobs && EndsBy(answer, end.db.jobs[id])
      && end.issued[id] == 1 && !Owns(end, id) && id !in end.workers
  {
    NotYetCalled(s, steps, id);
    CourseEnds(RunSteps(s, steps), id, answer);
  }

  lemma NotYetCalled(s: Host, steps: seq<Step>, id: JobId)
    requires Initial(s)
    ensures
      var mid := RunSteps(s, steps);
      && LocksLinked(mid.db.locks, mid.db.jobs) && mid.name != []
      && (id in mid.db.jobs && IsServiceAction(mid.db.jobs[id].operation) && BeforeCall(mid.db.jobs[id].state) ==>
            mid.issued[id] == 0)
  {
    RunIsSafe(s, steps);
    var mid := RunSteps(s, steps);
    if id in mid.db.jobs {
      assert ViewSafe(ViewOf(mid, id));
    }
  }

  lemma CourseEnds(mid: Host, id: JobId, answer: Answer)
    requires LocksLinked(mid.db.locks, mid.db.jobs) && mid.name != [] && mid.issued[id] == 0
    requires id in mid.db.jobs && id !in mid.workers && IsServiceAction(mid.db.jobs[id].operation)
    requires mid.db.jobs[id].state == Queued && !mid.db.jobs[id].cancelRequested
    requires Owns(mid, id) || Vacant(mid.db, HostLock(mid))
    ensures
      var end := RunSteps(mid, Course(id, answer));
      && id in end.db.jobs && EndsBy(answer, end.db.jobs[id])
      && end.issued[id] == 1 && !Owns(end, id) && id !in end.workers
  {
    var early := Opening(id) + [Work(id, Proceed), Work(id, CallReturns(answer.outcome))];
    StartsAndCalls(mid, id, mid.db.jobs[id], 0, answer.outcome);
    var called := RunSteps(mid, early);
    EndsAsAnsweredBy(called, id, called.db.jobs[id], 1, answer);
    RunTogether(mid, early, [Work(id, Proceed)] + Ending(id, answer));
  }

  // ---------------------------------------------------------------- cancelling before the call

  /** A cancelled job that still waits for the lock ends as not started on its worker's next read. */
  lemma WaitingJobIsCancelled(s: Host, id: JobId, spot: Spot)
    requires At(s, id, spot) && spot.pc == Some(Queueing) && spot.job.state == Queued && spot.job.cancelRequested
    ensures
      var end := Next(Next(s, Work(id, Proceed)), Work(id, Proceed));
      At(end, id, Spot(After(spot.job, Cancelled, Some(NotStarted)), None, spot.owns, spot.calls))
  {
    Reads(s, id, spot, Proceed);
    Commits(Next(s, Work(id, Proceed)), id, spot.(pc := Some(QueueCopy(spot.job))), Proceed);
  }

  /** The row and the handler of a cancel that was recorded before the call. */
  lemma CancelIsRecorded(s: Host, id: JobId, reason: string)
    requires id in s.db.jobs && BeforeCall(s.db.jobs[id].state) && Bounded(reason, 1024)
    ensures
      var job := s.db.jobs[id];
      var marked := job.(cancelRequested := true, revision := job.revision + 1);
      var s' := Next(s, RequestCancelOf(id, job.revision, reason));
      && id in s'.db.jobs && s'.db.jobs[id] == marked && CancelCommit(id, marked) in s'.cancels && id in s'.early
      && s'.name == s.name && s'.db.locks == s.db.locks
  {
    CancelExactly(s.db, id, s.db.jobs[id].revision, reason);
  }

  lemma CancelCommits(s: Host, id: JobId, job: Job)
    requires id in s.db.jobs && s.db.jobs[id] == job && CancelCommit(id, job) in s.cancels && CanStep(job.state, Cancelled)
    ensures
      var s' := Next(s, FinishCancel(CancelCommit(id, job)));
      && id in s'.db.jobs && s'.db.jobs[id] == After(job, Cancelled, Some(NotStarted)) && CancelRelease(id) in s'.cancels
      && s'.name == s.name
  {
    TransitionExactly(s.db, id, job.revision, Cancelled, Some(NotStarted));
  }

  lemma CancelReleases(s: Host, id: JobId)
    requires id in s.db.jobs && CancelRelease(id) in s.cancels
    ensures
      var s' := Next(s, FinishCancel(CancelRelease(id)));
      !Owns(s', id) && id in s'.db.jobs && s'.db.jobs[id] == s.db.jobs[id]
  {
  }

  /** The cancel is recorded, its handler ends the job, and then gives the lock back. */
  function CancelSteps(id: JobId, job: Job, reason: string): (steps: seq<Step>) {
    [RequestCancelOf(id, job.revision, reason), FinishCancel(CancelCommit(id, Marked(job))), FinishCancel(CancelRelease(id))]
  }

  function Marked(job: Job): (r: Job) { job.(cancelRequested := true, revision := job.revision + 1) }

  /** A cancel before the call that nothing overtakes ends the job as not started and frees the lock. */
  lemma EarlyCancelEnds(s: Host, id: JobId, reason: string)
    requires id in s.db.jobs && BeforeCall(s.db.jobs[id].state) && Bounded(reason, 1024)
    ensures
      var end := RunSteps(s, CancelSteps(id, s.db.jobs[id], reason));
      && id in end.db.jobs && end.db.jobs[id] == After(Marked(s.db.jobs[id]), Cancelled, Some(NotStarted))
      && !Owns(end, id)
  {
    var steps := CancelSteps(id, s.db.jobs[id], reason);
    CancelIsRecorded(s, id, reason);
    RunFirst(s, steps);
    MarkedJobEnds(Next(s, steps[0]), id, Marked(s.db.jobs[id]));
    assert steps[1..] == [FinishCancel(CancelCommit(id, Marked(s.db.jobs[id]))), FinishCancel(CancelRelease(id))];
  }

  lemma MarkedJobEnds(s: Host, id: JobId, job: Job)
    requires id in s.db.jobs && s.db.jobs[id] == job && CancelCommit(id, job) in s.cancels && CanStep(job.state, Cancelled)
    ensures
      var end := RunSteps(s, [FinishCancel(CancelCommit(id, job)), FinishCancel(CancelRelease(id))]);
      id in end.db.jobs && end.db.jobs[id] == After(job, Cancelled, Some(NotStarted)) && !Owns(end, id)
  {
    var steps := [FinishCancel(CancelCommit(id, job)), FinishCancel(CancelRelease(id))];
    CancelCommits(s, id, job);
    CancelReleases(Next(s, steps[0]), id);
    RunFirst(s, steps);
    assert steps[1..] == [FinishCancel(CancelRelease(id))];
    RunFirst(Next(s, steps[0]), steps[1..]);
  }

  // ---------------------------------------------------------------- deployment stages

  /** A host-changing deployment stage takes the vacant lock, is dispatched holding it, and frees it once it ended. */
  lemma StageHoldsLock(s: Host, id: JobId)
    requires LocksLinked(s.db.locks, s.db.jobs) && s.name != [] && id in s.db.jobs
    requires SerializesHostChanges(s.db.jobs[id].operation) && s.db.jobs[id].state == Queued
    requires Owns(s, id) || Vacant(s.db, HostLock(s))
    ensures
      var dispatched := Next(Next(s, CommandAcquire(id)), CommandDispatch(id, s.db.jobs[id].revision));
      id in dispatched.db.jobs && dispatched.db.jobs[id].state == Dispatching && Owns(dispatched, id)
  {
    LockIsTaken(s.db, HostLock(s), id);
    var held := Next(s, CommandAcquire(id));
    assert id in held.holders && held.db.jobs == s.db.jobs;
    TransitionExactly(held.db, id, s.db.jobs[id].revision, Dispatching, None);
  }

  lemma EndedJobReleases(s: Host, id: JobId)
    requires id in s.db.jobs
    ensures Owns(Next(s, ReleaseTerminal(id)), id) <==> Owns(s, id) && !IsTerminal(s.db.jobs[id].state)
  {
  }
}
