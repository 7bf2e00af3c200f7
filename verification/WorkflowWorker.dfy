/**
 The loops of a deploy.run worker over the store object: entering the local job,
 finishing it, and reconciling an unknown one from evidence only.  What happens
 when other writers interleave is the subject of `Workflow`.
 */
module WorkflowWorker {
  import opened Wrappers
  import opened Jobs
  import opened Changes
  import opened StoreModel
  import opened StoreProofs
  import opened Pipeline
  import Protocol
  import DurableStore
  import Workflow

  /** Everything but one job, and the log, is as it was. */
  ghost predicate OnlyJob(db: Db, db': Db, id: JobId) {
    && db' == db.(jobs := db'.jobs, events := db'.events)
    && db'.jobs.Keys == db.jobs.Keys && forall j :: j in db.jobs && j != id ==> db'.jobs[j] == db.jobs[j]
  }

  /** A worker enters from the record it read; a record that moved on is left alone. */
  method EnterLocalJob(store: DurableStore.Store, id: JobId, copy: Job) returns (r: Result<Job, StoreError>)
    requires store.Valid() && id in store.jobs && JobAdvances(copy, store.jobs[id])
    modifies store
    ensures store.Valid() && OnlyJob(old(store.Tables()), store.Tables(), id)
    ensures r.Ok? <==> copy.state == Running || (copy == old(store.jobs[id]) && copy.state in {Queued, Dispatching})
    ensures r.Ok? && copy.state != Running ==> r.value == store.jobs[id] && r.value.state == Running
    ensures r.Ok? && copy.state == Running ==> r.value == copy && store.Tables() == old(store.Tables())
    ensures r.Err? ==> store.Tables() == old(store.Tables())
  {
    var job := copy;
    if job.state == Queued {
      var moved := store.TransitionJob(id, job.revision, Dispatching, None);
      if moved.Err? {
        return Err(moved.error);
      }
      job := moved.value;
    }
    if job.state == Dispatching {
      var moved := store.TransitionJob(id, job.revision, Running, None);
      if moved.Err? {
        return Err(moved.error);
      }
      job := moved.value;
    }
    r := if job.state == Running then Ok(job) else Err(InvalidTransition);
  }

  /** Where `finish` ends from a state, if the graph lets it get there. */
  function FinishGoal(s: JobState, goal: JobState): (g: JobState) {
    if goal == OutcomeUnknown && s == Queued then Failed else goal
  }

  predicate CanFinish(s: JobState, goal: JobState) {
    var g := FinishGoal(s, goal);
    CanStep(s, g) || (g == OutcomeUnknown && CanStep(s, Reconciling))
  }

  /**
   Ends the job in its goal, passing through Reconciling on the way to an unknown
   outcome; a job that never started fails instead of becoming unknown.
   */
  method Finish(store: DurableStore.Store, id: JobId, goal: JobState) returns (r: Result<(), StoreError>)
    requires store.Valid() && IsTerminal(goal)
    modifies store
    ensures store.Valid() && OnlyJob(old(store.Tables()), store.Tables(), id)
    ensures id !in old(store.jobs) ==> r == Err(NotFound)
    ensures id in old(store.jobs) && IsTerminal(old(store.jobs[id]).state) ==> r.Ok? && store.Tables() == old(store.Tables())
    ensures id in old(store.jobs) && !IsTerminal(old(store.jobs[id]).state) ==>
      && (r.Err? <==> old(store.jobs[id]).state == Queued && goal == Succeeded)
      && (r.Err? ==> r.error == InvalidTransition)
      && (r.Ok? ==>
            store.jobs[id].state == if old(store.jobs[id]).state == Queued && goal == OutcomeUnknown then Failed else goal)
    ensures r.Err? ==> store.Tables() == old(store.Tables())
  {
    if id !in store.jobs {
      return Err(NotFound);
    }
    ghost var start := store.jobs[id].state;
    var aim := FinishGoal(store.jobs[id].state, goal);
    while !IsTerminal(store.jobs[id].state)
      invariant store.Valid() && OnlyJob(old(store.Tables()), store.Tables(), id) && id in store.jobs
      invariant
        || (store.jobs[id].state == start && store.Tables() == old(store.Tables()))
        || (aim == OutcomeUnknown && !IsTerminal(start) && store.jobs[id].state == Reconciling && CanStep(start, Reconciling))
        || (!IsTerminal(start) && store.jobs[id].state == aim && CanFinish(start, goal))
      decreases if IsTerminal(store.jobs[id].state) then 0 else if store.jobs[id].state == Reconciling then 1 else 2
    {
      var job := store.jobs[id];
      var next := FinishStep(job.state, goal);
      var moved := store.TransitionJob(id, job.revision, next, None);
      if moved.Err? {
        return Err(moved.error);
      }
    }
    r := Ok(());
  }

  /** Rows of other jobs are kept and every row moves forward. */
  ghost predicate Moves(db: Db, db': Db, id: JobId) {
    Extends(db, db') && forall j :: j in db.jobs && j != id ==> j in db'.jobs && db'.jobs[j] == db.jobs[j]
  }

  lemma ProjectionMoves(db: Db, id: JobId, revision: nat, target: Job)
    ensures Moves(db, Protocol.ProjectOnce(db, id, revision, target), id)
  {
    var next := if id in db.jobs then Protocol.ProjectionTarget(db.jobs[id].state, target.state) else None;
    ExtendsSelf(db);
    if next.Some? {
      ApplyExtends(db, DoTransition(id, revision, next.value, target.result));
    }
  }

  lemma TwoProjectionsMove(db: Db, id: JobId, revision: nat, target: Job)
    ensures Moves(db, Protocol.ProjectOnce(Protocol.ProjectOnce(db, id, revision, target), id, revision + 1, target), id)
  {
    var once := Protocol.ProjectOnce(db, id, revision, target);
    var twice := Protocol.ProjectOnce(once, id, revision + 1, target);
    ProjectionMoves(db, id, revision, target);
    ProjectionMoves(once, id, revision + 1, target);
    ExtendsTransitive(db, once, twice);
  }

  lemma ProjectedMoves(db: Db, db': Db, id: JobId, revision: nat, target: Job)
    requires
      var once := Protocol.ProjectOnce(db, id, revision, target);
      db' == db || db' == once || db' == Protocol.ProjectOnce(once, id, revision + 1, target)
    ensures Moves(db, db', id)
  {
    ExtendsSelf(db);
    ProjectionMoves(db, id, revision, target);
    TwoProjectionsMove(db, id, revision, target);
  }

  /** The child is there, and belongs to the workflow's principal. */
  predicate Ours(jobs: map<JobId, Job>, child: JobId, principal: string) {
    child in jobs && jobs[child].principal == principal
  }

  /** Looks at one child, asking its executor again when the record is not settled yet. */
  method ChildSettled(store: DurableStore.Store, child: JobId, principal: string, answer: Option<Job>)
    returns (r: Result<bool, StoreError>)
    requires store.Valid()
    modifies store
    ensures store.Valid() && Moves(old(store.Tables()), store.Tables(), child)
    ensures !Ours(old(store.jobs), child, principal) <==> r == Err(NotFound)
    ensures Ours(old(store.jobs), child, principal) ==>
      var job := old(store.jobs[child]);
      if IsSettled(job.state) || answer.None? then store.Tables() == old(store.Tables()) && r == Ok(IsSettled(job.state))
      else if !Protocol.SameJob(job, answer.value) then store.Tables() == old(store.Tables()) && r == Err(IdConflict)
      else
        && store.Tables() == Protocol.Project(old(store.Tables()), child, job.revision, answer.value)
        && child in store.jobs && r == Ok(IsSettled(store.jobs[child].state))
  {
    ghost var before := store.Tables();
    assert Moves(before, before, child) by {
      ExtendsSelf(before);
    }
    if child !in store.jobs || store.jobs[child].principal != principal {
      return Err(NotFound);
    }
    var job := store.jobs[child];
    if !IsSettled(job.state) && answer.Some? {
      JobAdvancesSelf(job);
      var projected := Protocol.ProjectTargetJob(store, child, job, answer.value);
      ProjectedMoves(before, store.Tables(), child, job.revision, answer.value);
      if projected.Err? {
        return Err(projected.error);
      }
      job := projected.value;
    }
    r := Ok(IsSettled(job.state));
  }

  predicate AllSettled(jobs: map<JobId, Job>, stages: seq<Option<JobId>>) {
    forall i :: 0 <= i < |stages| && stages[i].Some? ==> stages[i].value in jobs && IsSettled(jobs[stages[i].value].state)
  }

  lemma SettledStays(db: Db, db': Db, stages: seq<Option<JobId>>)
    requires AllSettled(db.jobs, stages) && Extends(db, db')
    ensures AllSettled(db'.jobs, stages)
  {
    forall i | 0 <= i < |stages| && stages[i].Some? ensures IsSettled(db'.jobs[stages[i].value].state) {
      assert JobAdvances(db.jobs[stages[i].value], db'.jobs[stages[i].value]);
    }
  }

  predicate AllOurs(jobs: map<JobId, Job>, stages: seq<Option<JobId>>, principal: string) {
    forall i :: 0 <= i < |stages| && stages[i].Some? ==> Ours(jobs, stages[i].value, principal)
  }

  ghost predicate MovesOnly(db: Db, db': Db, stages: seq<Option<JobId>>) {
    Extends(db, db') && forall j :: j in db.jobs && Some(j) !in stages ==> j in db'.jobs && db'.jobs[j] == db.jobs[j]
  }

  lemma OneMore(a: Db, b: Db, c: Db, stages: seq<Option<JobId>>, k: nat)
    requires MovesOnly(a, b, stages) && k < |stages| && AllSettled(b.jobs, stages[..k])
    requires if stages[k].Some? then Moves(b, c, stages[k].value) else c == b
    ensures MovesOnly(a, c, stages) && AllSettled(c.jobs, stages[..k])
  {
    if stages[k].Some? {
      ExtendsTransitive(a, b, c);
      SettledStays(b, c, stages[..k]);
    }
  }

  /** Stops at the first child that is missing or not settled. */
  method ChildrenSettled(store: DurableStore.Store, stages: seq<Option<JobId>>, principal: string, answers: map<JobId, Job>)
    returns (r: Result<bool, StoreError>)
    requires store.Valid()
    modifies store
    ensures store.Valid() && MovesOnly(old(store.Tables()), store.Tables(), stages)
    ensures r == Ok(true) ==> AllSettled(store.jobs, stages)
    ensures AllOurs(old(store.jobs), stages, principal) && AllSettled(old(store.jobs), stages) ==>
      r == Ok(true) && store.Tables() == old(store.Tables())
  {
    assert MovesOnly(store.Tables(), store.Tables(), stages) by {
      ExtendsSelf(store.Tables());
    }
    for k := 0 to |stages|
      invariant store.Valid() && MovesOnly(old(store.Tables()), store.Tables(), stages)
      invariant AllSettled(store.jobs, stages[..k])
      invariant AllOurs(old(store.jobs), stages, principal) && AllSettled(old(store.jobs), stages) ==>
        store.Tables() == old(store.Tables())
    {
      ghost var before := store.Tables();
      var settled := Ok(true);
      if stages[k].Some? {
        var child := stages[k].value;
        settled := ChildSettled(store, child, principal, if child in answers then Some(answers[child]) else None);
      }
      OneMore(old(store.Tables()), before, store.Tables(), stages, k);
      if settled != Ok(true) {
        return settled;
      }
    }
    r := Ok(true);
  }

  function Stages(jobs: ChangeJobs): (s: seq<Option<JobId>>) {
    [jobs.build, jobs.activate, jobs.verify, jobs.rollback]
  }

  /**
   Settles an unknown workflow only when every child the change names is settled,
   and then by what the change shows, not by resuming stages.
   */
  method Reconcile(store: DurableStore.Store, w: JobId, copy: Job, change: ChangeRecord, answers: map<JobId, Job>)
    returns (r: Result<Job, StoreError>)
    requires store.Valid() && w in store.jobs && JobAdvances(copy, store.jobs[w])
    modifies store
    ensures store.Valid() && w in store.jobs
    ensures Some(w) !in Stages(change.jobs) && store.jobs[w] != old(store.jobs[w]) ==>
      && copy == old(store.jobs[w]) && copy.state == OutcomeUnknown && Workflow.IsWorkflow(copy)
      && AllSettled(store.jobs, Stages(change.jobs)) && r == Ok(store.jobs[w])
      && (store.jobs[w].state == Succeeded <==>
            change.state == ChangeSucceeded || (copy.spec.until == Built && change.state == Ready))
      && (store.jobs[w].state == Cancelled <==> store.jobs[w].state != Succeeded && copy.cancelRequested)
      && (store.jobs[w].state == Failed <==> store.jobs[w].state != Succeeded && !copy.cancelRequested)
    ensures
      && copy == old(store.jobs[w]) && copy.state == OutcomeUnknown && Workflow.IsWorkflow(copy)
      && AllOurs(old(store.jobs), Stages(change.jobs), copy.principal) && AllSettled(old(store.jobs), Stages(change.jobs))
      ==> r == Ok(store.jobs[w]) && IsSettled(store.jobs[w].state)
    ensures copy.state != OutcomeUnknown || !Workflow.IsWorkflow(copy) ==> r == Ok(copy) && store.Tables() == old(store.Tables())
  {
    if copy.state != OutcomeUnknown || !Workflow.IsWorkflow(copy) {
      return Ok(copy);
    }
    var settled := ChildrenSettled(store, Stages(change.jobs), copy.principal, answers);
    if settled.Err? {
      return Err(settled.error);
    }
    if !settled.value {
      return Ok(copy);
    }
    var next := Verdict(copy.spec.until, copy.cancelRequested, change.state);
    SettleKeepsChildren(store.Tables(), w, copy.revision, next, Stages(change.jobs));
    r := store.TransitionJob(w, copy.revision, next, None);
    if r == Err(RevisionChanged) {
      r := Ok(store.jobs[w]);
    }
  }

  lemma SettleKeepsChildren(db: Db, w: JobId, revision: nat, next: JobState, stages: seq<Option<JobId>>)
    requires AllSettled(db.jobs, stages)
    ensures AllSettled(AfterTransition(db, w, revision, next, None).jobs, stages)
  {
    ApplyExtends(db, DoTransition(w, revision, next, None));
    SettledStays(db, AfterTransition(db, w, revision, next, None), stages);
  }
}
