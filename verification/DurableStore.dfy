/**
 The store object of one process.  Its methods run under the writer mutex, each
 in one transaction: they work on copies of the tables and commit at the end, so
 that a failed check leaves every table as it was.
 */
module DurableStore {
  import opened Wrappers
  import opened Jobs
  import opened Changes
  import opened StoreModel
  import StoreProofs
  import opened Utf8

  datatype SubmitResult = SubmitResult(id: JobId, job: Job, created: bool)

  class Store {
    var jobs: map<JobId, Job>
    var events: seq<JobEvent>
    var receipts: map<SubmissionKey, Receipt>
    var changes: map<ChangeId, ChangeRow>
    var locks: map<Resource, Lock>

    ghost function Tables(): (db: Db)
      reads this
    {
      Db(jobs, events, receipts, changes, locks)
    }

    ghost predicate Valid()
      reads this
    {
      StoreProofs.Inv(Tables())
    }

    constructor ()
      ensures Valid() && Tables() == EMPTY
    {
      jobs, events, receipts, changes, locks := map[], [], map[], map[], map[];
    }

    /** The change part of a submission, computed inside its transaction. */
    method LinkChange(jobs': map<JobId, Job>, principal: string, id: JobId, link: ChangeLink)
      returns (r: Result<map<ChangeId, ChangeRow>, StoreError>)
      ensures r == StoreModel.LinkChange(jobs', changes, principal, id, link)
    {
      var snapshot := link.change;
      var c := snapshot.plan.changeId;
      if c !in changes || changes[c].record.creator != principal {
        return Err(NotFound);
      }
      var row := changes[c];
      if row.record.revision != snapshot.revision {
        return Err(RevisionChanged);
      }
      var refused := CheckOwner(jobs', row.workflow, link.workflow);
      if refused.Some? {
        return Err(refused.value);
      }
      if snapshot.state != link.next && !CanAdvance(snapshot.state, link.next) {
        return Err(InvalidTransition);
      }
      var linked := snapshot.jobs;
      var owner := Some(id);
      if link.action.Some? {
        linked := LinkJob(linked, link.action.value, id);
        owner := row.workflow;
      }
      var record := row.record.(revision := row.record.revision + 1, state := link.next, jobs := linked);
      r := Ok(changes[c := ChangeRow(record, owner)]);
    }

    method SubmitLinkedJob(key: string, id: JobId, request: NewJob, link: Option<ChangeLink>)
      returns (r: Result<SubmitResult, StoreError>)
      requires Valid()
      modifies this
      ensures Valid()
      ensures match StoreModel.SubmitLinkedJob(old(Tables()), key, id, request, link)
              case Err(e) => r == Err(e) && Tables() == old(Tables())
              case Ok(s) => Tables() == s.db && r == Ok(SubmitResult(s.id, s.db.jobs[s.id], s.created))
    {
      if !ValidNewJob(key, request) {
        return Err(InvalidRequest);
      }
      var receipt := SubmissionKey(request.principal, key);
      if receipt in receipts {
        if receipts[receipt].hash != HashOf(request) {
          return Err(KeyConflict);
        }
        var existing := receipts[receipt].job;
        return Ok(SubmitResult(existing, jobs[existing], false));
      }
      if id in jobs {
        return Err(IdConflict);
      }
      r := InsertLinkedJob(key, id, request, link);
    }

    /** The inserting half of a submission; only the change link can still refuse it. */
    method InsertLinkedJob(key: string, id: JobId, request: NewJob, link: Option<ChangeLink>)
      returns (r: Result<SubmitResult, StoreError>)
      requires Valid() && ValidNewJob(key, request)
      requires SubmissionKey(request.principal, key) !in receipts && id !in jobs
      modifies this
      ensures Valid()
      ensures match StoreModel.SubmitLinkedJob(old(Tables()), key, id, request, link)
              case Err(e) => r == Err(e) && Tables() == old(Tables())
              case Ok(s) => Tables() == s.db && s.created && s.id == id && r == Ok(SubmitResult(id, s.db.jobs[id], true))
    {
      ghost var done := AfterSubmit(Tables(), key, id, request, link);
      assert StoreProofs.Inv(done) by { StoreProofs.SubmitKeepsInv(Tables(), key, id, request, link); }
      var changes' := changes;
      if link.Some? {
        var linked := LinkChange(jobs[id := FreshJob(request)], request.principal, id, link.value);
        if linked.Err? {
          return Err(linked.error);
        }
        changes' := linked.value;
      }
      CommitJob(SubmissionKey(request.principal, key), id, request, changes');
      assert Tables() == done;
      r := Ok(SubmitResult(id, jobs[id], true));
    }

    method CommitJob(receipt: SubmissionKey, id: JobId, request: NewJob, linked: map<ChangeId, ChangeRow>)
      modifies this
      ensures Tables() == InsertJob(old(Tables()), receipt, id, request, linked)
    {
      jobs := jobs[id := FreshJob(request)];
      changes := linked;
      receipts := receipts[receipt := Receipt(HashOf(request), id)];
      events := events + [JobEvent(id, Submitted, Queued)];
    }

    method AcceptJob(id: JobId, request: NewJob) returns (r: Result<SubmitResult, StoreError>)
      requires Valid()
      modifies this
      ensures Valid()
      ensures match StoreModel.AcceptJob(old(Tables()), id, request)
              case Err(e) => r == Err(e) && Tables() == old(Tables())
              case Ok(s) => Tables() == s.db && r == Ok(SubmitResult(id, s.db.jobs[id], s.created))
    {
      ghost var done := AfterAccept(Tables(), id, request);
      assert StoreProofs.Inv(done) by { StoreProofs.AcceptKeepsInv(Tables(), id, request); }
      if !ValidNewJob("upstream-job-id", request) {
        return Err(InvalidRequest);
      }
      if id in jobs {
        if jobs[id].hash != HashOf(request) {
          return Err(IdConflict);
        }
        return Ok(SubmitResult(id, jobs[id], false));
      }
      jobs := jobs[id := FreshJob(request)];
      events := events + [JobEvent(id, Submitted, Queued)];
      assert Tables() == done;
      r := Ok(SubmitResult(id, jobs[id], true));
    }

    method TransitionJob(id: JobId, expected: nat, next: JobState, result: Option<Evidence>)
      returns (r: Result<Job, StoreError>)
      requires Valid()
      modifies this
      ensures Valid()
      ensures match StoreModel.TransitionJob(old(Tables()), id, expected, next, result)
              case Err(e) => r == Err(e) && Tables() == old(Tables())
              case Ok(db) => Tables() == db && r == Ok(db.jobs[id])
    {
      ghost var done := AfterTransition(Tables(), id, expected, next, result);
      assert StoreProofs.Inv(done) by { StoreProofs.TransitionKeepsInv(Tables(), id, expected, next, result); }
      if id !in jobs {
        return Err(NotFound);
      }
      var current := jobs[id];
      if current.revision != expected {
        return Err(RevisionChanged);
      }
      if !CanStep(current.state, next) {
        return Err(InvalidTransition);
      }
      var kind := StateChanged;
      if current.state == Reconciling || current.state == OutcomeUnknown {
        kind := Reconciled;
      }
      jobs := jobs[id := current.(state := next, revision := current.revision + 1, result := result)];
      events := events + [JobEvent(id, kind, next)];
      assert Tables() == done;
      r := Ok(jobs[id]);
    }

    method RequestCancel(id: JobId, expected: nat, reason: string) returns (r: Result<Job, StoreError>)
      requires Valid()
      modifies this
      ensures Valid()
      ensures match StoreModel.RequestCancel(old(Tables()), id, expected, reason)
              case Err(e) => r == Err(e) && Tables() == old(Tables())
              case Ok(db) => Tables() == db && r == Ok(db.jobs[id])
    {
      ghost var done := AfterCancel(Tables(), id, expected, reason);
      assert StoreProofs.Inv(done) by { StoreProofs.CancelKeepsInv(Tables(), id, expected, reason); }
      if !Bounded(reason, 1024) {
        return Err(InvalidRequest);
      }
      if id !in jobs {
        return Err(NotFound);
      }
      var current := jobs[id];
      if current.revision != expected {
        return Err(RevisionChanged);
      }
      if IsTerminal(current.state) {
        return Err(TerminalJob);
      }
      jobs := jobs[id := current.(cancelRequested := true, revision := current.revision + 1)];
      events := events + [JobEvent(id, CancelRequested, current.state)];
      assert Tables() == done;
      r := Ok(jobs[id]);
    }

    method TryAcquireResource(resource: Resource, owner: JobId) returns (r: Result<bool, StoreError>)
      requires Valid()
      modifies this`locks
      ensures Valid()
      ensures match TryAcquire(old(Tables()), resource, owner)
              case Err(e) => r == Err(e) && Tables() == old(Tables())
              case Ok(a) => Tables() == a.db && r == Ok(a.acquired)
    {
      if resource.kind == [] || resource.key == [] {
        return Err(InvalidRequest);
      }
      var revision := 1;
      if resource in locks {
        var lock := locks[resource];
        if lock.owner == owner {
          return Ok(true);
        }
        if !IsTerminal(jobs[lock.owner].state) {
          return Ok(false);
        }
        revision := lock.revision + 1;
      }
      if owner !in jobs {
        return Err(ForeignKey);
      }
      ghost var done := AfterAcquire(Tables(), resource, owner);
      assert StoreProofs.Inv(done) by { StoreProofs.AcquireKeepsInv(Tables(), resource, owner); }
      locks := locks[resource := Lock(owner, revision)];
      assert Tables() == done;
      r := Ok(true);
    }

    method ReleaseResource(resource: Resource, owner: JobId) returns (released: bool)
      requires Valid()
      modifies this`locks
      ensures Valid()
      ensures Tables() == Release(old(Tables()), resource, owner)
      ensures released <==> old(resource in locks && locks[resource].owner == owner)
    {
      ghost var done := Release(Tables(), resource, owner);
      assert StoreProofs.Inv(done) by { StoreProofs.ReleaseKeepsInv(Tables(), resource, owner); }
      released := resource in locks && locks[resource].owner == owner;
      if released {
        locks := locks - {resource};
      }
    }

    method CreateChange(plan: Plan, creator: string, prepare: JobId) returns (r: Result<ChangeRecord, StoreError>)
      requires Valid()
      modifies this`changes
      ensures Valid()
      ensures match StoreModel.CreateChange(old(Tables()), plan, creator, prepare)
              case Err(e) => r == Err(e) && Tables() == old(Tables())
              case Ok(db) => Tables() == db && r == Ok(db.changes[plan.changeId].record)
    {
      ghost var done := AfterCreate(Tables(), plan, creator, prepare);
      assert StoreProofs.Inv(done) by { StoreProofs.CreateKeepsInv(Tables(), plan, creator, prepare); }
      if !Bounded(creator, 128) {
        return Err(InvalidRequest);
      }
      if plan.changeId in changes {
        return Err(IdConflict);
      }
      var linked := ChangeJobs(Some(prepare), None, None, None, None);
      changes := changes[plan.changeId := ChangeRow(ChangeRecord(plan, creator, 1, Checking, None, linked), None)];
      assert Tables() == done;
      r := Ok(changes[plan.changeId].record);
    }

    method TransitionChange(id: ChangeId, creator: string, update: ChangeUpdate)
      returns (r: Result<ChangeRecord, StoreError>)
      requires Valid()
      modifies this`changes
      ensures Valid()
      ensures match StoreModel.TransitionChange(old(Tables()), id, creator, update)
              case Err(e) => r == Err(e) && Tables() == old(Tables())
              case Ok(db) => Tables() == db && r == Ok(db.changes[id].record)
    {
      ghost var done := AfterUpdate(Tables(), id, creator, update);
      assert StoreProofs.Inv(done) by { StoreProofs.UpdateKeepsInv(Tables(), id, creator, update); }
      if id !in changes || changes[id].record.creator != creator {
        return Err(NotFound);
      }
      var row := changes[id];
      if row.record.revision != update.expected {
        return Err(RevisionChanged);
      }
      if row.record.state != update.next && !CanAdvance(row.record.state, update.next) {
        return Err(InvalidTransition);
      }
      var record :=
        ChangeRecord(update.plan, creator, update.expected + 1, update.next, update.artifact, update.jobs);
      changes := changes[id := ChangeRow(record, row.workflow)];
      r := Ok(record);
    }
  }
}
