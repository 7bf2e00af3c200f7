/**
 What every transaction of the store keeps: the event log rebuilds each job,
 records only move forward, receipts fix the job of a submission key, and at
 most one unsettled workflow ever owns a change.
 */
module StoreProofs {
  import opened Wrappers
  import opened Jobs
  import opened Changes
  import opened StoreModel

  // ---------------------------------------------------------------- the event log of one job

  function LogOf(events: seq<JobEvent>, id: JobId): (log: seq<JobEvent>)
    decreases |events|
  {
    if events == [] then []
    else
      var last := events[|events| - 1];
      var before := LogOf(events[..|events| - 1], id);
      if last.job == id then before + [last] else before
  }

  datatype Folded = Folded(state: JobState, revision: nat, cancelRequested: bool)

  /** Rebuilds a job from its events alone. */
  function Replay(log: seq<JobEvent>): (f: Option<Folded>)
    decreases |log|
  {
    if log == [] then None
    else
      var e := log[|log| - 1];
      var before := Replay(log[..|log| - 1]);
      match e.kind
      case Submitted => if before.None? then Some(Folded(e.state, 1, false)) else None
      case CancelRequested =>
        if before.None? then None else Some(Folded(before.value.state, before.value.revision + 1, true))
      case _ =>
        if before.None? then None else Some(Folded(e.state, before.value.revision + 1, before.value.cancelRequested))
  }

  /** Consecutive events repeat the state under a cancel request and otherwise take a legal step. */
  predicate LegalLog(log: seq<JobEvent>) {
    && (log != [] ==> log[0].kind == Submitted && log[0].state == Queued)
    && forall i :: 0 < i < |log| ==> LegalSuccessor(log[i - 1], log[i])
  }

  predicate LegalSuccessor(before: JobEvent, after: JobEvent) {
    match after.kind
    case Submitted => false
    case CancelRequested => after.state == before.state && !IsTerminal(before.state)
    case StateChanged =>
      CanStep(before.state, after.state) && before.state != Reconciling && before.state != OutcomeUnknown
    case Reconciled =>
      CanStep(before.state, after.state) && (before.state == Reconciling || before.state == OutcomeUnknown)
  }

  lemma LogOfAppend(events: seq<JobEvent>, e: JobEvent, id: JobId)
    ensures LogOf(events + [e], id) == if e.job == id then LogOf(events, id) + [e] else LogOf(events, id)
  {
    assert (events + [e])[..|events|] == events;
  }

  lemma ReplayAppend(log: seq<JobEvent>, e: JobEvent)
    requires Replay(log).Some? && e.kind != Submitted
    ensures Replay(log + [e]) == Some(
      if e.kind == CancelRequested then Folded(Replay(log).value.state, Replay(log).value.revision + 1, true)
      else Folded(e.state, Replay(log).value.revision + 1, Replay(log).value.cancelRequested))
  {
    assert (log + [e])[..|log|] == log;
  }

  predicate HasCancel(log: seq<JobEvent>) {
    exists i :: 0 <= i < |log| && log[i].kind == CancelRequested
  }

  lemma HasCancelAppend(log: seq<JobEvent>, e: JobEvent)
    ensures HasCancel(log + [e]) <==> HasCancel(log) || e.kind == CancelRequested
  {
    if HasCancel(log) {
      var i :| 0 <= i < |log| && log[i].kind == CancelRequested;
      assert (log + [e])[i].kind == CancelRequested;
    }
    assert (log + [e])[|log|] == e;
  }

  lemma LegalPrefix(log: seq<JobEvent>)
    requires LegalLog(log) && |log| > 1
    ensures LegalLog(log[..|log| - 1]) && LegalSuccessor(log[|log| - 2], log[|log| - 1])
  {
  }

  lemma ReplayFirst(e: JobEvent)
    requires e.kind == Submitted
    ensures Replay([e]) == Some(Folded(e.state, 1, false)) && !HasCancel([e])
  {
    assert [e][..0] == [];
  }

  /** The last event carries the rebuilt state, the log length is the revision, and the flag tells of a cancel. */
  lemma {:induction false} ReplayShape(log: seq<JobEvent>)
    requires LegalLog(log) && log != []
    ensures Replay(log) == Some(Folded(log[|log| - 1].state, |log|, HasCancel(log)))
    decreases |log|
  {
    var before, e := log[..|log| - 1], log[|log| - 1];
    if before == [] {
      assert log == [e];
      ReplayFirst(e);
    } else {
      LegalPrefix(log);
      ReplayShape(before);
      assert log == before + [e];
      ReplayAppend(before, e);
      HasCancelAppend(before, e);
    }
  }

  /** A terminal history stays terminal, and a settled one keeps its state. */
  lemma {:induction false} TerminalIsFinal(log: seq<JobEvent>, i: nat, j: nat)
    requires LegalLog(log) && i <= j < |log|
    ensures IsTerminal(log[i].state) ==> IsTerminal(log[j].state)
    ensures IsSettled(log[i].state) ==> log[j].state == log[i].state && i == j
    decreases j
  {
    if i < j {
      TerminalIsFinal(log, i, j - 1);
      assert LegalSuccessor(log[j - 1], log[j]);
    }
  }

  /** Nothing is dispatched, run, reconciled or succeeds without passing through Dispatching. */
  lemma {:induction false} EffectsPassThroughDispatching(log: seq<JobEvent>, k: nat)
    requires LegalLog(log) && k < |log|
    requires log[k].state in {Running, Reconciling, Succeeded, OutcomeUnknown}
    ensures exists j :: 0 <= j < k && log[j].state == Dispatching
    decreases k
  {
    assert LegalSuccessor(log[k - 1], log[k]);
    if log[k - 1].state != Dispatching {
      EffectsPassThroughDispatching(log, k - 1);
    }
  }

  // ---------------------------------------------------------------- the table invariant

  predicate JobRebuilt(job: Job, log: seq<JobEvent>) {
    && LegalLog(log)
    && Replay(log) == Some(Folded(job.state, job.revision, job.cancelRequested))
    && job.hash == HashOf(SubmitRequest(job))
  }

  /** Every job is rebuilt by its events. */
  ghost predicate Rebuilt(jobs: map<JobId, Job>, events: seq<JobEvent>) {
    && (forall id {:trigger LogOf(events, id)} :: id in jobs ==> JobRebuilt(jobs[id], LogOf(events, id)))
    && (forall id {:trigger LogOf(events, id)} :: id !in jobs ==> LogOf(events, id) == [])
  }

  ghost predicate ReceiptsLinked(receipts: map<SubmissionKey, Receipt>, jobs: map<JobId, Job>) {
    forall k :: k in receipts ==>
      && receipts[k].job in jobs
      && jobs[receipts[k].job].hash == receipts[k].hash
      && jobs[receipts[k].job].principal == k.principal
  }

  ghost predicate OwnersLinked(changes: map<ChangeId, ChangeRow>, jobs: map<JobId, Job>) {
    forall c :: c in changes && changes[c].workflow.Some? ==> changes[c].workflow.value in jobs
  }

  ghost predicate LocksLinked(locks: map<Resource, Lock>, jobs: map<JobId, Job>) {
    forall r :: r in locks ==> locks[r].owner in jobs
  }

  /** Every reference points to a row, and a receipt to a job with its hash. */
  ghost predicate Linked(db: Db) {
    ReceiptsLinked(db.receipts, db.jobs) && OwnersLinked(db.changes, db.jobs) && LocksLinked(db.locks, db.jobs)
  }

  ghost predicate Inv(db: Db) {
    Rebuilt(db.jobs, db.events) && Linked(db)
  }

  /** The effect on a job row that the event `e` records. */
  predicate Recorded(before: Job, e: JobEvent, after: Job) {
    && after.hash == HashOf(SubmitRequest(after)) && e.kind != Submitted && after.revision == before.revision + 1
    && (if e.kind == CancelRequested then
          e.state == before.state == after.state && after.cancelRequested && !IsTerminal(after.state)
        else
          && CanStep(before.state, e.state) && after.state == e.state
          && after.cancelRequested == before.cancelRequested
          && (e.kind == Reconciled <==> before.state == Reconciling || before.state == OutcomeUnknown))
  }

  // ---------------------------------------------------------------- what each transaction writes

  /** One job row is written and one event appended; nothing else moves. */
  predicate WritesJob(db: Db, db': Db, id: JobId, job: Job, e: JobEvent) {
    e.job == id && db' == db.(jobs := db.jobs[id := job], events := db.events + [e])
  }

  /** A job row and its first event appear; locks stay. */
  predicate AddsJob(db: Db, db': Db, id: JobId, request: NewJob) {
    && id !in db.jobs && db'.jobs == db.jobs[id := FreshJob(request)] && db'.locks == db.locks
    && db'.events == db.events + [JobEvent(id, Submitted, Queued)]
  }

  function EventOf(job: Job, id: JobId, next: JobState): (e: JobEvent) {
    JobEvent(id, if job.state == Reconciling || job.state == OutcomeUnknown then Reconciled else StateChanged, next)
  }

  lemma TransitionEffect(db: Db, id: JobId, expected: nat, next: JobState, result: Option<Evidence>)
    requires TransitionJob(db, id, expected, next, result).Ok?
    ensures id in db.jobs && db.jobs[id].revision == expected && CanStep(db.jobs[id].state, next)
    ensures
      var job := db.jobs[id];
      WritesJob(db, TransitionJob(db, id, expected, next, result).value, id,
                job.(state := next, revision := job.revision + 1, result := result), EventOf(job, id, next))
  {
  }

  lemma CancelEffect(db: Db, id: JobId, expected: nat, reason: string)
    requires RequestCancel(db, id, expected, reason).Ok?
    ensures id in db.jobs && db.jobs[id].revision == expected && !IsTerminal(db.jobs[id].state)
    ensures
      var job := db.jobs[id];
      WritesJob(db, RequestCancel(db, id, expected, reason).value, id,
                job.(cancelRequested := true, revision := job.revision + 1), JobEvent(id, CancelRequested, job.state))
  {
  }

  lemma SubmitEffect(db: Db, key: string, id: JobId, request: NewJob, link: Option<ChangeLink>)
    requires SubmitLinkedJob(db, key, id, request, link).Ok?
    ensures
      var s := SubmitLinkedJob(db, key, id, request, link).value;
      var k := SubmissionKey(request.principal, key);
      if s.created then
        && AddsJob(db, s.db, id, request) && s.id == id
        && k !in db.receipts && s.db.receipts == db.receipts[k := Receipt(HashOf(request), id)]
        && (if link.None? then s.db.changes == db.changes
            else LinkChange(s.db.jobs, db.changes, request.principal, id, link.value) == Ok(s.db.changes))
      else s.db == db && k in db.receipts && db.receipts[k] == Receipt(HashOf(request), s.id)
  {
  }

  lemma AcceptEffect(db: Db, id: JobId, request: NewJob)
    requires AcceptJob(db, id, request).Ok?
    ensures
      var s := AcceptJob(db, id, request).value;
      if s.created then AddsJob(db, s.db, id, request) && s.db == db.(jobs := s.db.jobs, events := s.db.events)
      else s.db == db && id in db.jobs && db.jobs[id].hash == HashOf(request)
  {
  }

  /** A committed link replaces one row, read at the revision the caller saw. */
  lemma LinkChangeEffect(jobs: map<JobId, Job>, changes: map<ChangeId, ChangeRow>, principal: string, id: JobId, link: ChangeLink)
    requires LinkChange(jobs, changes, principal, id, link).Ok?
    ensures
      var c := link.change.plan.changeId;
      var changes' := LinkChange(jobs, changes, principal, id, link).value;
      && c in changes && c in changes' && changes' == changes[c := changes'[c]]
      && changes[c].record.creator == principal && changes[c].record.revision == link.change.revision
      && CheckOwner(jobs, changes[c].workflow, link.workflow).None?
      && (link.change.state == link.next || CanAdvance(link.change.state, link.next))
      && changes'[c].workflow == (if link.action.None? then Some(id) else changes[c].workflow)
      && changes'[c].record == changes[c].record.(
           revision := changes[c].record.revision + 1,
           state := link.next,
           jobs := if link.action.Some? then LinkJob(link.change.jobs, link.action.value, id) else link.change.jobs)
  {
  }

  lemma UpdateEffect(db: Db, id: ChangeId, creator: string, u: ChangeUpdate)
    requires TransitionChange(db, id, creator, u).Ok?
    ensures
      var db' := TransitionChange(db, id, creator, u).value;
      && id in db.changes && db.changes[id].record.creator == creator && db.changes[id].record.revision == u.expected
      && (db.changes[id].record.state == u.next || CanAdvance(db.changes[id].record.state, u.next))
      && db' == db.(changes := db.changes[id := ChangeRow(
           ChangeRecord(u.plan, creator, u.expected + 1, u.next, u.artifact, u.jobs), db.changes[id].workflow)])
  {
  }

  lemma AcquireEffect(db: Db, resource: Resource, owner: JobId)
    requires TryAcquire(db, resource, owner).Ok?
    ensures
      var a := TryAcquire(db, resource, owner).value;
      && a.db == db.(locks := a.db.locks)
      && (a.db.locks == db.locks
          || (&& a.acquired && owner in db.jobs && resource in a.db.locks && a.db.locks[resource].owner == owner
              && a.db.locks == db.locks[resource := a.db.locks[resource]]
              && (resource in db.locks ==> db.locks[resource].owner in db.jobs
                                           && IsTerminal(db.jobs[db.locks[resource].owner].state))))
      && (a.acquired <==> resource in a.db.locks && a.db.locks[resource].owner == owner)
      && (!a.acquired ==> resource in db.locks && db.locks[resource].owner in db.jobs
                          && !IsTerminal(db.jobs[db.locks[resource].owner].state))
  {
  }

  // ---------------------------------------------------------------- every transaction keeps the invariant

  lemma NewJobKeepsRebuilt(jobs: map<JobId, Job>, events: seq<JobEvent>, id: JobId, request: NewJob)
    requires Rebuilt(jobs, events) && id !in jobs
    ensures Rebuilt(jobs[id := FreshJob(request)], events + [JobEvent(id, Submitted, Queued)])
  {
    var e := JobEvent(id, Submitted, Queued);
    FreshIsRebuilt(request, e);
    forall i ensures LogOf(events + [e], i) == if i == id then [e] else LogOf(events, i) {
      LogOfAppend(events, e, i);
    }
  }

  lemma FreshIsRebuilt(request: NewJob, e: JobEvent)
    requires e.kind == Submitted && e.state == Queued
    ensures JobRebuilt(FreshJob(request), [e])
  {
    RedispatchKeepsHash(request);
    assert [e][..0] == [];
  }

  /** A recorded step turns a rebuilt job into a rebuilt job. */
  lemma StepIsRebuilt(before: Job, log: seq<JobEvent>, e: JobEvent, after: Job)
    requires JobRebuilt(before, log) && Recorded(before, e, after)
    ensures JobRebuilt(after, log + [e])
  {
    ReplayShape(log);
    ReplayAppend(log, e);
    assert LegalSuccessor(log[|log| - 1], e);
  }

  lemma JobStepKeepsRebuilt(jobs: map<JobId, Job>, events: seq<JobEvent>, id: JobId, e: JobEvent, after: Job)
    requires Rebuilt(jobs, events) && id in jobs && e.job == id && Recorded(jobs[id], e, after)
    ensures Rebuilt(jobs[id := after], events + [e])
  {
    var log := LogOf(events, id);
    StepIsRebuilt(jobs[id], log, e, after);
    forall i ensures LogOf(events + [e], i) == if i == id then log + [e] else LogOf(events, i) {
      LogOfAppend(events, e, i);
    }
  }

  lemma TransitionIsRecorded(job: Job, id: JobId, next: JobState, result: Option<Evidence>)
    requires CanStep(job.state, next) && job.hash == HashOf(SubmitRequest(job))
    ensures Recorded(job, EventOf(job, id, next), job.(state := next, revision := job.revision + 1, result := result))
  {
    var after := job.(state := next, revision := job.revision + 1, result := result);
    assert SubmitRequest(after) == SubmitRequest(job);
  }

  lemma CancelIsRecorded(job: Job, id: JobId)
    requires !IsTerminal(job.state) && job.hash == HashOf(SubmitRequest(job))
    ensures Recorded(job, JobEvent(id, CancelRequested, job.state), job.(cancelRequested := true, revision := job.revision + 1))
  {
    var after := job.(cancelRequested := true, revision := job.revision + 1);
    assert SubmitRequest(after) == SubmitRequest(job);
  }

  lemma MoveKeepsInv(db: Db, db': Db, id: JobId, after: Job, e: JobEvent)
    requires Inv(db) && id in db.jobs && WritesJob(db, db', id, after, e) && Recorded(db.jobs[id], e, after)
    requires after.hash == db.jobs[id].hash && after.principal == db.jobs[id].principal
    ensures Inv(db')
  {
    JobStepKeepsRebuilt(db.jobs, db.events, id, e, after);
    WriteKeepsLinked(db, db', id, after, e);
  }

  lemma WriteKeepsLinked(db: Db, db': Db, id: JobId, after: Job, e: JobEvent)
    requires Linked(db) && id in db.jobs && WritesJob(db, db', id, after, e)
    requires after.hash == db.jobs[id].hash && after.principal == db.jobs[id].principal
    ensures Linked(db')
  {
  }

  lemma TransitionKeepsInv(db: Db, id: JobId, expected: nat, next: JobState, result: Option<Evidence>)
    requires Inv(db)
    ensures Inv(AfterTransition(db, id, expected, next, result))
  {
    if TransitionJob(db, id, expected, next, result).Ok? {
      TransitionEffect(db, id, expected, next, result);
      var job := db.jobs[id];
      assert JobRebuilt(job, LogOf(db.events, id));
      TransitionIsRecorded(job, id, next, result);
      MoveKeepsInv(db, AfterTransition(db, id, expected, next, result), id,
                   job.(state := next, revision := job.revision + 1, result := result), EventOf(job, id, next));
    }
  }

  lemma CancelKeepsInv(db: Db, id: JobId, expected: nat, reason: string)
    requires Inv(db)
    ensures Inv(AfterCancel(db, id, expected, reason))
  {
    if RequestCancel(db, id, expected, reason).Ok? {
      CancelEffect(db, id, expected, reason);
      var job := db.jobs[id];
      assert JobRebuilt(job, LogOf(db.events, id));
      CancelIsRecorded(job, id);
      MoveKeepsInv(db, AfterCancel(db, id, expected, reason), id,
                   job.(cancelRequested := true, revision := job.revision + 1), JobEvent(id, CancelRequested, job.state));
    }
  }

  lemma AddKeepsReceipts(db: Db, db': Db, id: JobId, request: NewJob, k: SubmissionKey)
    requires ReceiptsLinked(db.receipts, db.jobs) && AddsJob(db, db', id, request) && k.principal == request.principal
    requires db'.receipts == db.receipts || db'.receipts == db.receipts[k := Receipt(HashOf(request), id)]
    ensures ReceiptsLinked(db'.receipts, db'.jobs)
  {
  }

  lemma LinkKeepsOwners(jobs: map<JobId, Job>, changes: map<ChangeId, ChangeRow>, principal: string, id: JobId, link: ChangeLink)
    requires OwnersLinked(changes, jobs) && id in jobs && LinkChange(jobs, changes, principal, id, link).Ok?
    ensures OwnersLinked(LinkChange(jobs, changes, principal, id, link).value, jobs)
  {
    LinkChangeEffect(jobs, changes, principal, id, link);
  }

  lemma SubmitKeepsInv(db: Db, key: string, id: JobId, request: NewJob, link: Option<ChangeLink>)
    requires Inv(db)
    ensures Inv(AfterSubmit(db, key, id, request, link))
  {
    var s := SubmitLinkedJob(db, key, id, request, link);
    if s.Ok? {
      SubmitEffect(db, key, id, request, link);
      if s.value.created {
        NewJobKeepsRebuilt(db.jobs, db.events, id, request);
        SubmitKeepsLinked(db, s.value.db, key, id, request, link);
      }
    }
  }

  lemma SubmitKeepsLinked(db: Db, db': Db, key: string, id: JobId, request: NewJob, link: Option<ChangeLink>)
    requires Linked(db) && AddsJob(db, db', id, request)
    requires db'.receipts == db.receipts[SubmissionKey(request.principal, key) := Receipt(HashOf(request), id)]
    requires if link.None? then db'.changes == db.changes
             else LinkChange(db'.jobs, db.changes, request.principal, id, link.value) == Ok(db'.changes)
    ensures Linked(db')
  {
    AddKeepsReceipts(db, db', id, request, SubmissionKey(request.principal, key));
    assert OwnersLinked(db.changes, db'.jobs) && LocksLinked(db.locks, db'.jobs);
    if link.Some? {
      LinkKeepsOwners(db'.jobs, db.changes, request.principal, id, link.value);
    }
  }

  lemma AcceptKeepsInv(db: Db, id: JobId, request: NewJob)
    requires Inv(db)
    ensures Inv(AfterAccept(db, id, request))
  {
    var s := AcceptJob(db, id, request);
    if s.Ok? {
      AcceptEffect(db, id, request);
      if s.value.created {
        NewJobKeepsRebuilt(db.jobs, db.events, id, request);
        AddKeepsReceipts(db, s.value.db, id, request, SubmissionKey(request.principal, ""));
        assert OwnersLinked(db.changes, s.value.db.jobs) && LocksLinked(db.locks, s.value.db.jobs);
      }
    }
  }

  lemma AcquireKeepsInv(db: Db, resource: Resource, owner: JobId)
    requires Inv(db)
    ensures Inv(AfterAcquire(db, resource, owner))
  {
    if TryAcquire(db, resource, owner).Ok? {
      AcquireEffect(db, resource, owner);
      assert LocksLinked(AfterAcquire(db, resource, owner).locks, db.jobs);
    }
  }

  lemma ReleaseKeepsInv(db: Db, resource: Resource, owner: JobId)
    requires Inv(db)
    ensures Inv(Release(db, resource, owner))
  {
  }

  lemma CreateKeepsInv(db: Db, plan: Plan, creator: string, prepare: JobId)
    requires Inv(db)
    ensures Inv(AfterCreate(db, plan, creator, prepare))
  {
    assert OwnersLinked(AfterCreate(db, plan, creator, prepare).changes, db.jobs);
  }

  lemma UpdateKeepsInv(db: Db, change: ChangeId, creator: string, update: ChangeUpdate)
    requires Inv(db)
    ensures Inv(AfterUpdate(db, change, creator, update))
  {
    if TransitionChange(db, change, creator, update).Ok? {
      UpdateEffect(db, change, creator, update);
      assert OwnersLinked(AfterUpdate(db, change, creator, update).changes, db.jobs);
    }
  }

  lemma ApplyKeepsInv(db: Db, op: Op)
    requires Inv(db)
    ensures Inv(Apply(db, op))
  {
    match op
    case DoSubmit(key, id, request, link) => SubmitKeepsInv(db, key, id, request, link);
    case DoAccept(id, request) => AcceptKeepsInv(db, id, request);
    case DoTransition(id, expected, next, result) => TransitionKeepsInv(db, id, expected, next, result);
    case DoCancel(id, expected, reason) => CancelKeepsInv(db, id, expected, reason);
    case DoAcquire(resource, owner) => AcquireKeepsInv(db, resource, owner);
    case DoRelease(resource, owner) => ReleaseKeepsInv(db, resource, owner);
    case DoCreateChange(plan, creator, prepare) => CreateKeepsInv(db, plan, creator, prepare);
    case DoTransitionChange(change, creator, update) => UpdateKeepsInv(db, change, creator, update);
  }

  lemma {:induction false} ReachableInv(db: Db, ops: seq<Op>)
    requires Inv(db)
    ensures Inv(Run(db, ops))
    decreases |ops|
  {
    if ops != [] {
      ApplyKeepsInv(db, ops[0]);
      ReachableInv(Apply(db, ops[0]), ops[1..]);
    }
  }

  /** In every reachable store the events of a job rebuild its state, revision and cancel flag. */
  lemma EventLogRefinesJobs(ops: seq<Op>, id: JobId)
    requires id in Run(EMPTY, ops).jobs
    ensures
      var db := Run(EMPTY, ops);
      var log := LogOf(db.events, id);
      && LegalLog(log)
      && |log| == db.jobs[id].revision
      && Replay(log) == Some(Folded(db.jobs[id].state, db.jobs[id].revision, db.jobs[id].cancelRequested))
      && (db.jobs[id].state == Succeeded ==> exists j :: 0 <= j < |log| - 1 && log[j].state == Dispatching)
  {
    ReachableInv(EMPTY, ops);
    var db := Run(EMPTY, ops);
    var log := LogOf(db.events, id);
    assert JobRebuilt(db.jobs[id], log);
    ReplayShape(log);
    if db.jobs[id].state == Succeeded {
      EffectsPassThroughDispatching(log, |log| - 1);
    }
  }

  // ---------------------------------------------------------------- records only move forward

  predicate SameIdentity(a: Job, b: Job) {
    && a.principal == b.principal && a.host == b.host && a.operation == b.operation
    && a.specVersion == b.specVersion && a.spec == b.spec && a.hash == b.hash
    && a.policyVersion == b.policyVersion
  }

  predicate JobAdvances(a: Job, b: Job) {
    && SameIdentity(a, b)
    && a.revision <= b.revision
    && (a.revision == b.revision ==> a == b)
    && (IsTerminal(a.state) ==> IsTerminal(b.state))
    && (IsSettled(a.state) ==> a == b)
    && (a.state != Queued ==> b.state != Queued)
    && (a.cancelRequested ==> b.cancelRequested)
  }

  predicate RowAdvances(a: ChangeRow, b: ChangeRow) {
    && a.record.creator == b.record.creator
    && a.record.revision <= b.record.revision
    && (a.record.revision == b.record.revision ==> a == b)
  }

  ghost predicate JobsExtend(jobs: map<JobId, Job>, jobs': map<JobId, Job>) {
    forall id :: id in jobs ==> id in jobs' && JobAdvances(jobs[id], jobs'[id])
  }

  ghost predicate ReceiptsExtend(receipts: map<SubmissionKey, Receipt>, receipts': map<SubmissionKey, Receipt>) {
    forall k :: k in receipts ==> k in receipts' && receipts'[k] == receipts[k]
  }

  ghost predicate ChangesExtend(changes: map<ChangeId, ChangeRow>, changes': map<ChangeId, ChangeRow>) {
    forall c :: c in changes ==> c in changes' && RowAdvances(changes[c], changes'[c])
  }

  ghost predicate Extends(db: Db, db': Db) {
    && JobsExtend(db.jobs, db'.jobs) && ReceiptsExtend(db.receipts, db'.receipts)
    && ChangesExtend(db.changes, db'.changes) && db.events <= db'.events
  }

  lemma JobAdvancesSelf(job: Job)
    ensures JobAdvances(job, job)
  {
  }

  /** A write to one job row that advances it. */
  lemma WriteExtends(db: Db, db': Db, id: JobId, after: Job, e: JobEvent)
    requires id in db.jobs && WritesJob(db, db', id, after, e) && JobAdvances(db.jobs[id], after)
    ensures Extends(db, db')
  {
    SameRowsExtend(db, db');
    forall j | j in db.jobs ensures j in db'.jobs && JobAdvances(db.jobs[j], db'.jobs[j]) {
      JobAdvancesSelf(db.jobs[j]);
    }
  }

  /** Receipts and changes that stay equal extend themselves. */
  lemma SameRowsExtend(db: Db, db': Db)
    requires db'.receipts == db.receipts && db'.changes == db.changes
    ensures ReceiptsExtend(db.receipts, db'.receipts) && ChangesExtend(db.changes, db'.changes)
  {
  }

  lemma SameJobsExtend(db: Db, db': Db)
    requires db'.jobs == db.jobs
    ensures JobsExtend(db.jobs, db'.jobs)
  {
    forall id | id in db.jobs ensures JobAdvances(db.jobs[id], db'.jobs[id]) {
      JobAdvancesSelf(db.jobs[id]);
    }
  }

  lemma TransitionAdvances(job: Job, next: JobState, result: Option<Evidence>)
    requires CanStep(job.state, next)
    ensures JobAdvances(job, job.(state := next, revision := job.revision + 1, result := result))
  {
  }

  lemma CancelAdvances(job: Job)
    requires !IsTerminal(job.state)
    ensures JobAdvances(job, job.(cancelRequested := true, revision := job.revision + 1))
  {
  }

  function Moved(job: Job, next: JobState, result: Option<Evidence>): (r: Job) {
    job.(state := next, revision := job.revision + 1, result := result)
  }

  function CancelMarked(job: Job): (r: Job) {
    job.(cancelRequested := true, revision := job.revision + 1)
  }

  /** A transition leaves the tables alone or writes one advancing row. */
  lemma TransitionWrites(db: Db, id: JobId, expected: nat, next: JobState, result: Option<Evidence>)
    requires id in db.jobs
    ensures
      var db' := AfterTransition(db, id, expected, next, result);
      || db' == db
      || (WritesJob(db, db', id, Moved(db.jobs[id], next, result), EventOf(db.jobs[id], id, next))
          && JobAdvances(db.jobs[id], Moved(db.jobs[id], next, result)))
  {
    if TransitionJob(db, id, expected, next, result).Ok? {
      TransitionEffect(db, id, expected, next, result);
      TransitionAdvances(db.jobs[id], next, result);
    }
  }

  lemma CancelWrites(db: Db, id: JobId, expected: nat, reason: string)
    ensures
      var db' := AfterCancel(db, id, expected, reason);
      || db' == db
      || (id in db.jobs && WritesJob(db, db', id, CancelMarked(db.jobs[id]), JobEvent(id, CancelRequested, db.jobs[id].state))
          && !IsTerminal(db.jobs[id].state) && JobAdvances(db.jobs[id], CancelMarked(db.jobs[id])))
  {
    if RequestCancel(db, id, expected, reason).Ok? {
      CancelEffect(db, id, expected, reason);
      CancelAdvances(db.jobs[id]);
    }
  }

  lemma ExtendsSelf(db: Db)
    ensures Extends(db, db)
  {
    SameJobsExtend(db, db);
    SameRowsExtend(db, db);
  }

  lemma TransitionExtends(db: Db, id: JobId, expected: nat, next: JobState, result: Option<Evidence>)
    ensures Extends(db, AfterTransition(db, id, expected, next, result))
  {
    if TransitionJob(db, id, expected, next, result).Ok? {
      TransitionEffect(db, id, expected, next, result);
      var job := db.jobs[id];
      TransitionAdvances(job, next, result);
      WriteExtends(db, AfterTransition(db, id, expected, next, result), id,
                   job.(state := next, revision := job.revision + 1, result := result), EventOf(job, id, next));
    } else {
      ExtendsSelf(db);
    }
  }

  lemma CancelExtends(db: Db, id: JobId, expected: nat, reason: string)
    ensures Extends(db, AfterCancel(db, id, expected, reason))
  {
    if RequestCancel(db, id, expected, reason).Ok? {
      CancelEffect(db, id, expected, reason);
      var job := db.jobs[id];
      CancelAdvances(job);
      WriteExtends(db, AfterCancel(db, id, expected, reason), id,
                   job.(cancelRequested := true, revision := job.revision + 1), JobEvent(id, CancelRequested, job.state));
    } else {
      ExtendsSelf(db);
    }
  }

  lemma AddExtends(db: Db, db': Db, id: JobId, request: NewJob)
    requires AddsJob(db, db', id, request)
    ensures JobsExtend(db.jobs, db'.jobs) && db.events <= db'.events
  {
    forall j | j in db.jobs ensures j in db'.jobs && JobAdvances(db.jobs[j], db'.jobs[j]) {
      JobAdvancesSelf(db.jobs[j]);
    }
  }

  lemma LinkExtends(jobs: map<JobId, Job>, changes: map<ChangeId, ChangeRow>, principal: string, id: JobId, link: ChangeLink)
    requires LinkChange(jobs, changes, principal, id, link).Ok?
    ensures ChangesExtend(changes, LinkChange(jobs, changes, principal, id, link).value)
  {
    LinkChangeEffect(jobs, changes, principal, id, link);
  }

  lemma SubmitExtends(db: Db, key: string, id: JobId, request: NewJob, link: Option<ChangeLink>)
    ensures Extends(db, AfterSubmit(db, key, id, request, link))
  {
    var s := SubmitLinkedJob(db, key, id, request, link);
    if s.Ok? {
      SubmitEffect(db, key, id, request, link);
    }
    if s.Ok? && s.value.created {
      AddExtends(db, s.value.db, id, request);
      if link.Some? {
        LinkExtends(s.value.db.jobs, db.changes, request.principal, id, link.value);
      }
      assert ChangesExtend(db.changes, s.value.db.changes);
    } else {
      ExtendsSelf(db);
    }
  }

  lemma AcceptExtends(db: Db, id: JobId, request: NewJob)
    ensures Extends(db, AfterAccept(db, id, request))
  {
    var s := AcceptJob(db, id, request);
    if s.Ok? {
      AcceptEffect(db, id, request);
    }
    if s.Ok? && s.value.created {
      AddExtends(db, s.value.db, id, request);
      SameRowsExtend(db, s.value.db);
    } else {
      ExtendsSelf(db);
    }
  }

  lemma LocksExtend(db: Db, db': Db)
    requires db' == db.(locks := db'.locks)
    ensures Extends(db, db')
  {
    SameJobsExtend(db, db');
    SameRowsExtend(db, db');
  }

  lemma AcquireExtends(db: Db, resource: Resource, owner: JobId)
    ensures Extends(db, AfterAcquire(db, resource, owner))
  {
    if TryAcquire(db, resource, owner).Ok? {
      AcquireEffect(db, resource, owner);
    }
    LocksExtend(db, AfterAcquire(db, resource, owner));
  }

  lemma ChangeWriteExtends(db: Db, db': Db)
    requires db' == db.(changes := db'.changes) && ChangesExtend(db.changes, db'.changes)
    ensures Extends(db, db')
  {
    SameJobsExtend(db, db');
  }

  lemma CreateExtends(db: Db, plan: Plan, creator: string, prepare: JobId)
    ensures Extends(db, AfterCreate(db, plan, creator, prepare))
  {
    ChangeWriteExtends(db, AfterCreate(db, plan, creator, prepare));
  }

  lemma UpdateExtends(db: Db, change: ChangeId, creator: string, update: ChangeUpdate)
    ensures Extends(db, AfterUpdate(db, change, creator, update))
  {
    if TransitionChange(db, change, creator, update).Ok? {
      UpdateEffect(db, change, creator, update);
    }
    ChangeWriteExtends(db, AfterUpdate(db, change, creator, update));
  }

  lemma ApplyExtends(db: Db, op: Op)
    ensures Extends(db, Apply(db, op))
  {
    match op
    case DoSubmit(key, id, request, link) => SubmitExtends(db, key, id, request, link);
    case DoAccept(id, request) => AcceptExtends(db, id, request);
    case DoTransition(id, expected, next, result) => TransitionExtends(db, id, expected, next, result);
    case DoCancel(id, expected, reason) => CancelExtends(db, id, expected, reason);
    case DoAcquire(resource, owner) => AcquireExtends(db, resource, owner);
    case DoRelease(resource, owner) => LocksExtend(db, Release(db, resource, owner));
    case DoCreateChange(plan, creator, prepare) => CreateExtends(db, plan, creator, prepare);
    case DoTransitionChange(change, creator, update) => UpdateExtends(db, change, creator, update);
  }

  lemma AdvancesTransitive(a: Job, b: Job, c: Job)
    requires JobAdvances(a, b) && JobAdvances(b, c)
    ensures JobAdvances(a, c)
  {
  }

  lemma ExtendsTransitive(a: Db, b: Db, c: Db)
    requires Extends(a, b) && Extends(b, c)
    ensures Extends(a, c)
  {
    forall id | id in a.jobs ensures id in c.jobs && JobAdvances(a.jobs[id], c.jobs[id]) {
      AdvancesTransitive(a.jobs[id], b.jobs[id], c.jobs[id]);
    }
    forall x | x in a.changes ensures x in c.changes && RowAdvances(a.changes[x], c.changes[x]) {
      assert RowAdvances(a.changes[x], b.changes[x]) && RowAdvances(b.changes[x], c.changes[x]);
    }
  }

  /** Over any run no row is lost, no settled job changes and every identity is immutable. */
  lemma {:induction false} RunExtends(db: Db, ops: seq<Op>)
    ensures Extends(db, Run(db, ops))
    decreases |ops|
  {
    if ops != [] {
      ApplyExtends(db, ops[0]);
      RunExtends(Apply(db, ops[0]), ops[1..]);
      ExtendsTransitive(db, Apply(db, ops[0]), Run(db, ops));
    }
  }

  /** A key that has a receipt decides every later submission, which changes nothing. */
  lemma ReceiptDecides(db: Db, key: string, id: JobId, request: NewJob, link: Option<ChangeLink>)
    requires SubmissionKey(request.principal, key) in db.receipts
    ensures
      var receipt := db.receipts[SubmissionKey(request.principal, key)];
      var s := SubmitLinkedJob(db, key, id, request, link);
      && AfterSubmit(db, key, id, request, link) == db
      && (s.Ok? ==> s.value.id == receipt.job && !s.value.created)
      && (s.Ok? <==> ValidNewJob(key, request) && HashOf(request) == receipt.hash)
  {
  }

  lemma SubmissionLeavesReceipt(db: Db, key: string, id: JobId, request: NewJob, link: Option<ChangeLink>)
    requires SubmitLinkedJob(db, key, id, request, link).Ok?
    ensures
      var s := SubmitLinkedJob(db, key, id, request, link).value;
      var k := SubmissionKey(request.principal, key);
      k in s.db.receipts && s.db.receipts[k] == Receipt(HashOf(request), s.id)
  {
    SubmitEffect(db, key, id, request, link);
  }

  /**
   For one principal and key, whatever happens between two submissions and
   whatever the second one asks for, it returns the first job or fails, and in
   both cases leaves every table as it was.
   */
  lemma SubmissionsAgree(db: Db, key: string, id: JobId, request: NewJob, link: Option<ChangeLink>, ops: seq<Op>,
                         id': JobId, request': NewJob, link': Option<ChangeLink>)
    requires request'.principal == request.principal
    requires SubmitLinkedJob(db, key, id, request, link).Ok?
    ensures
      var first := SubmitLinkedJob(db, key, id, request, link).value;
      var later := Run(first.db, ops);
      var second := SubmitLinkedJob(later, key, id', request', link');
      && AfterSubmit(later, key, id', request', link') == later
      && (second.Ok? ==> second.value.id == first.id && !second.value.created)
      && (second.Ok? <==> ValidNewJob(key, request') && HashOf(request') == HashOf(request))
  {
    var first := SubmitLinkedJob(db, key, id, request, link).value;
    SubmissionLeavesReceipt(db, key, id, request, link);
    RunExtends(first.db, ops);
    ReceiptDecides(Run(first.db, ops), key, id', request', link');
  }

  // ---------------------------------------------------------------- locks

  /** A lock held by a live job stays with it until that job itself releases it. */
  lemma LiveLockIsKept(db: Db, op: Op, r: Resource)
    requires Linked(db)
    requires r in db.locks && !IsTerminal(db.jobs[db.locks[r].owner].state)
    requires op != DoRelease(r, db.locks[r].owner)
    ensures r in Apply(db, op).locks && Apply(db, op).locks[r] == db.locks[r]
  {
    match op
    case DoAcquire(resource, owner) =>
      if TryAcquire(db, resource, owner).Ok? {
        AcquireEffect(db, resource, owner);
      }
    case DoRelease(resource, owner) =>
    case _ => OnlyLockOpsMoveLocks(db, op);
  }

  lemma OnlyLockOpsMoveLocks(db: Db, op: Op)
    requires !op.DoAcquire? && !op.DoRelease?
    ensures Apply(db, op).locks == db.locks
  {
    match op
    case DoSubmit(key, id, request, link) => SubmitKeepsLocks(db, key, id, request, link);
    case _ =>
  }

  lemma SubmitKeepsLocks(db: Db, key: string, id: JobId, request: NewJob, link: Option<ChangeLink>)
    ensures AfterSubmit(db, key, id, request, link).locks == db.locks
  {
    if SubmitLinkedJob(db, key, id, request, link).Ok? {
      SubmitEffect(db, key, id, request, link);
    }
  }

  /** A release by a job that is not the owner changes nothing. */
  lemma StaleReleaseIsInert(db: Db, r: Resource, owner: JobId)
    ensures Release(db, r, owner) == db <==> !(r in db.locks && db.locks[r].owner == owner)
  {
    if r in db.locks && db.locks[r].owner == owner {
      assert r !in Release(db, r, owner).locks;
    }
  }

  // ---------------------------------------------------------------- workflow ownership

  /** The tables with the history of which workflows ever claimed each change. */
  datatype Ledger = Ledger(db: Db, claims: map<ChangeId, set<JobId>>)

  function ClaimsOf(l: Ledger, c: ChangeId): (s: set<JobId>) {
    if c in l.claims then l.claims[c] else {}
  }

  /** A claim never names a workflow of its own. */
  predicate Admissible(op: Op) {
    op.DoSubmit? && op.link.Some? && op.link.value.action.None? ==> op.link.value.workflow.None?
  }

  predicate IsClaim(db: Db, op: Op) {
    && op.DoSubmit? && op.link.Some? && op.link.value.action.None?
    && (var s := SubmitLinkedJob(db, op.key, op.id, op.request, op.link); s.Ok? && s.value.created)
  }

  function Record(l: Ledger, op: Op): (r: Ledger) {
    var c := if op.DoSubmit? && op.link.Some? then op.link.value.change.plan.changeId else ChangeId(0);
    Ledger(Apply(l.db, op), if IsClaim(l.db, op) then l.claims[c := ClaimsOf(l, c) + {op.id}] else l.claims)
  }

  function RecordAll(l: Ledger, ops: seq<Op>): (r: Ledger)
    decreases |ops|
  {
    if ops == [] then l else RecordAll(Record(l, ops[0]), ops[1..])
  }

  ghost predicate Fenced(l: Ledger) {
    forall c, j :: c in l.claims && j in l.claims[c] ==> FencedAt(l.db, c, j)
  }

  predicate FencedAt(db: Db, c: ChangeId, j: JobId) {
    && c in db.changes && j in db.jobs
    && (IsSettled(db.jobs[j].state) || db.changes[c].workflow == Some(j))
  }

  /** Only a claim moves ownership, and only away from a settled owner. */
  lemma OwnerChangesOnlyWhenSettled(db: Db, op: Op, c: ChangeId)
    requires Linked(db) && Admissible(op) && c in db.changes
    ensures c in Apply(db, op).changes
    ensures Apply(db, op).changes[c].workflow == db.changes[c].workflow || db.changes[c].workflow.None?
            || IsSettled(db.jobs[db.changes[c].workflow.value].state)
  {
    match op
    case DoSubmit(key, id, request, link) => SubmitMovesOwner(db, key, id, request, link, c);
    case DoTransitionChange(change, creator, update) =>
      if TransitionChange(db, change, creator, update).Ok? {
        UpdateEffect(db, change, creator, update);
      }
    case DoCreateChange(plan, creator, prepare) =>
    case _ => JobOpsKeepChanges(db, op);
  }

  lemma JobOpsKeepChanges(db: Db, op: Op)
    requires !op.DoSubmit? && !op.DoTransitionChange? && !op.DoCreateChange?
    ensures Apply(db, op).changes == db.changes
  {
  }

  lemma SubmitMovesOwner(db: Db, key: string, id: JobId, request: NewJob, link: Option<ChangeLink>, c: ChangeId)
    requires Linked(db) && c in db.changes
    requires link.Some? && link.value.action.None? ==> link.value.workflow.None?
    ensures
      var changes' := AfterSubmit(db, key, id, request, link).changes;
      && c in changes'
      && (changes'[c].workflow == db.changes[c].workflow || db.changes[c].workflow.None?
          || IsSettled(db.jobs[db.changes[c].workflow.value].state))
  {
    var s := SubmitLinkedJob(db, key, id, request, link);
    if s.Ok? {
      SubmitEffect(db, key, id, request, link);
      if s.value.created && link.Some? {
        LinkChangeEffect(s.value.db.jobs, db.changes, request.principal, id, link.value);
      }
    }
  }

  /** A workflow that claimed the change stays its owner until it settles. */
  lemma ClaimIsKept(l: Ledger, op: Op, c: ChangeId, j: JobId)
    requires Linked(l.db) && Fenced(l) && Admissible(op) && c in l.claims && j in l.claims[c]
    ensures FencedAt(Apply(l.db, op), c, j)
  {
    assert FencedAt(l.db, c, j);
    ApplyExtends(l.db, op);
    assert JobAdvances(l.db.jobs[j], Apply(l.db, op).jobs[j]);
    OwnerChangesOnlyWhenSettled(l.db, op, c);
  }

  lemma ClaimOwns(db: Db, op: Op)
    requires IsClaim(db, op)
    ensures FencedAt(Apply(db, op), op.link.value.change.plan.changeId, op.id)
  {
  }

  lemma RecordKeepsFence(l: Ledger, op: Op)
    requires Linked(l.db) && Fenced(l) && Admissible(op)
    ensures Fenced(Record(l, op))
  {
    var l' := Record(l, op);
    forall c, j | c in l'.claims && j in l'.claims[c] ensures FencedAt(l'.db, c, j) {
      if c in l.claims && j in l.claims[c] {
        ClaimIsKept(l, op, c, j);
      } else {
        ClaimOwns(l.db, op);
      }
    }
  }

  /**
   Of all workflows that ever claimed a change, at most one is unsettled, and it
   is the recorded owner.
   */
  lemma {:induction false} OneLiveWorkflow(l: Ledger, ops: seq<Op>)
    requires Inv(l.db) && Fenced(l)
    requires forall i :: 0 <= i < |ops| ==> Admissible(ops[i])
    ensures
      var l' := RecordAll(l, ops);
      && Fenced(l') && Inv(l'.db)
      && forall c, j, k :: c in l'.claims && j in l'.claims[c] && k in l'.claims[c]
           && !IsSettled(l'.db.jobs[j].state) && !IsSettled(l'.db.jobs[k].state)
           ==> j == k && l'.db.changes[c].workflow == Some(j)
    decreases |ops|
  {
    if ops != [] {
      ApplyKeepsInv(l.db, ops[0]);
      RecordKeepsFence(l, ops[0]);
      OneLiveWorkflow(Record(l, ops[0]), ops[1..]);
    }
  }

  /**
   A stage is linked only by the running, uncancelled owner or, without a
   workflow, when any previous owner is settled; a claim moves ownership to the
   new job and a stage leaves it alone.
   */
  lemma LinkRespectsOwner(db: Db, key: string, id: JobId, request: NewJob, link: ChangeLink)
    requires Inv(db)
    requires
      var s := SubmitLinkedJob(db, key, id, request, Some(link));
      s.Ok? && s.value.created
    ensures
      var c := link.change.plan.changeId;
      var db' := SubmitLinkedJob(db, key, id, request, Some(link)).value.db;
      && c in db.changes && c in db'.changes
      && db.changes[c].record.revision == link.change.revision
      && (match link.workflow
          case Some(w) =>
            db.changes[c].workflow == Some(w) && w in db.jobs && db.jobs[w].state == Running && !db.jobs[w].cancelRequested
          case None =>
            db.changes[c].workflow.Some? ==> IsSettled(db.jobs[db.changes[c].workflow.value].state))
      && db'.changes[c].workflow == (if link.action.None? then Some(id) else db.changes[c].workflow)
      && db'.jobs[id] == FreshJob(request)
  {
    var c := link.change.plan.changeId;
    assert db.changes[c].workflow.Some? ==> db.changes[c].workflow.value != id;
  }
}
