/**
 The durable tables of one maxops process and the transactions over them, as
 values.  A transaction either commits one new `Db` or fails and leaves the old
 one; `DurableStore.Store` runs these transactions in place.
 */
module StoreModel {
  import opened Wrappers
  import opened Jobs
  import opened Changes
  import opened CanonicalJson
  import opened Utf8

  // ---------------------------------------------------------------- rows

  /** What a parser returns: no object repeats a key. */
  type Document = v: Json | WellFormed(v) witness Json.Null

  datatype Spec =
    | Plain(json: Document)
    | Workflow(change: ChangeId, until: Until)
    | Stage(action: DeploymentAction, plan: Plan, artifact: Option<Artifact>)

  /** The request fingerprint; the digest over it is taken to be injective. */
  datatype SpecHash = SpecHash(host: string, operation: Operation, version: nat, spec: Spec)

  datatype NewJob = NewJob(
    principal: string,
    host: string,
    operation: Operation,
    specVersion: nat,
    spec: Spec,
    policyVersion: string)

  /** What a transition stores in the result column. */
  datatype Evidence =
    | Progress(accepted: bool)            // service baseline, and whether systemd returned a manager job
    | NotStarted                          // "effect": "not_started"
    | EffectUnknown                       // "effect": "unknown"
    | Runner(report: Option<DeploymentReport>)
    | Finished(success: bool)
    | Refused

  datatype Job = Job(
    principal: string,
    host: string,
    operation: Operation,
    specVersion: nat,
    spec: Spec,
    hash: SpecHash,
    policyVersion: string,
    state: JobState,
    revision: nat,
    cancelRequested: bool,
    result: Option<Evidence>)

  datatype JobEventKind = Submitted | StateChanged | Reconciled | CancelRequested

  datatype JobEvent = JobEvent(job: JobId, kind: JobEventKind, state: JobState)

  datatype SubmissionKey = SubmissionKey(principal: string, key: string)

  datatype Receipt = Receipt(hash: SpecHash, job: JobId)

  datatype ChangeRow = ChangeRow(record: ChangeRecord, workflow: Option<JobId>)

  datatype Resource = Resource(kind: string, key: string)

  datatype Lock = Lock(owner: JobId, revision: nat)

  datatype Db = Db(
    jobs: map<JobId, Job>,
    events: seq<JobEvent>,
    receipts: map<SubmissionKey, Receipt>,
    changes: map<ChangeId, ChangeRow>,
    locks: map<Resource, Lock>)

  const EMPTY: Db := Db(map[], [], map[], map[], map[])

  datatype StoreError =
    | InvalidRequest
    | KeyConflict
    | IdConflict
    | NotFound
    | RevisionChanged
    | InvalidTransition
    | OwnershipChanged
    | WorkflowNotRunning
    | OwnedByWorkflow
    | TerminalJob
    | ForeignKey

  /** `action == None` claims the change for a new workflow; otherwise a stage is linked. */
  datatype ChangeLink = ChangeLink(
    change: ChangeRecord,
    next: ChangeState,
    action: Option<DeploymentAction>,
    workflow: Option<JobId>)

  datatype Submission = Submission(db: Db, id: JobId, created: bool)

  datatype ChangeUpdate = ChangeUpdate(
    expected: nat,
    next: ChangeState,
    plan: Plan,
    artifact: Option<Artifact>,
    jobs: ChangeJobs)

  // ---------------------------------------------------------------- specifications of a job

  function CanonicalSpec(spec: Spec): (r: Spec) {
    match spec
    case Plain(json) =>
      CanonicalKeepsMeaning(json);
      Plain(Canonical(json))
    case _ => spec
  }

  function HashOf(request: NewJob): (h: SpecHash) {
    SpecHash(request.host, request.operation, request.specVersion, CanonicalSpec(request.spec))
  }

  /** The request the Hub rebuilds from its stored record for every dispatch. */
  function SubmitRequest(job: Job): (request: NewJob) {
    NewJob(job.principal, job.host, job.operation, job.specVersion, job.spec, job.policyVersion)
  }

  function FreshJob(request: NewJob): (job: Job) {
    Job(request.principal, request.host, request.operation, request.specVersion, CanonicalSpec(request.spec), HashOf(request),
        request.policyVersion, Queued, 1, false, None)
  }

  /**
   A redispatch from the stored record asks for what the client asked for, with
   the specification in canonical form, and so carries the original hash; a second
   store that accepts it holds the same row.
   */
  lemma RedispatchKeepsHash(request: NewJob)
    ensures SubmitRequest(FreshJob(request)) == request.(spec := CanonicalSpec(request.spec))
    ensures HashOf(SubmitRequest(FreshJob(request))) == HashOf(request) == FreshJob(request).hash
    ensures FreshJob(SubmitRequest(FreshJob(request))) == FreshJob(request)
  {
    if request.spec.Plain? {
      CanonicalIdempotent(request.spec.json);
    }
  }

  /** Two requests share a hash exactly when they differ at most in the order of object keys. */
  lemma HashDecidesRequest(a: NewJob, b: NewJob)
    ensures HashOf(a) == HashOf(b) <==>
      && a.host == b.host && a.operation == b.operation && a.specVersion == b.specVersion
      && (if a.spec.Plain? && b.spec.Plain? then Meaning(a.spec.json) == Meaning(b.spec.json) else a.spec == b.spec)
  {
    if a.spec.Plain? && b.spec.Plain? {
      CanonicalDecidesMeaning(a.spec.json, b.spec.json);
    }
  }

  predicate Graphic(c: char) { '!' <= c <= '~' }

  predicate HostChar(c: char) {
    'a' <= c <= 'z' || 'A' <= c <= 'Z' || '0' <= c <= '9' || c == '_' || c == '-'
  }

  predicate ValidHost(host: string) {
    0 < |host| <= 128 && forall i :: 0 <= i < |host| ==> HostChar(host[i])
  }

  predicate ValidNewJob(key: string, request: NewJob) {
    && 0 < |key| <= 128 && (forall i :: 0 <= i < |key| ==> Graphic(key[i]))
    && Bounded(request.principal, 128)
    && ValidHost(request.host)
    && (request.operation.OtherOperation? ==> Bounded(request.operation.name, 128))
    && request.specVersion > 0
    && Bounded(request.policyVersion, 128)
    && (request.spec.Plain? ==> request.spec.json.Obj?)
  }

  // ---------------------------------------------------------------- submissions

  function LinkJob(jobs: ChangeJobs, action: DeploymentAction, id: JobId): (r: ChangeJobs) {
    match action
    case Prepare => jobs.(prepare := Some(id))
    case Build => jobs.(build := Some(id))
    case Activate => jobs.(activate := Some(id))
    case Verify => jobs.(verify := Some(id))
    case Rollback => jobs.(rollback := Some(id))
  }

  /** The ownership rule for linking a stage, or for claiming the change. */
  function CheckOwner(jobs: map<JobId, Job>, owner: Option<JobId>, workflow: Option<JobId>): (r: Option<StoreError>) {
    var ownerJob := if owner.Some? && owner.value in jobs then Some(jobs[owner.value]) else None;
    match workflow
    case Some(w) =>
      if owner != Some(w) then Some(OwnershipChanged)
      else if ownerJob.None? || ownerJob.value.state != Running || ownerJob.value.cancelRequested
      then Some(WorkflowNotRunning)
      else None
    case None =>
      if ownerJob.Some? && !IsSettled(ownerJob.value.state) then Some(OwnedByWorkflow) else None
  }

  function LinkChange(jobs: map<JobId, Job>, changes: map<ChangeId, ChangeRow>, principal: string, id: JobId, link: ChangeLink)
    : (r: Result<map<ChangeId, ChangeRow>, StoreError>)
  {
    var c := link.change.plan.changeId;
    if c !in changes || changes[c].record.creator != principal then Err(NotFound)
    else
      var row := changes[c];
      if row.record.revision != link.change.revision then Err(RevisionChanged)
      else
        var owner := CheckOwner(jobs, row.workflow, link.workflow);
        if owner.Some? then Err(owner.value)
        else if link.change.state != link.next && !CanAdvance(link.change.state, link.next) then Err(InvalidTransition)
        else
          var linked := if link.action.Some? then LinkJob(link.change.jobs, link.action.value, id) else link.change.jobs;
          var record := row.record.(revision := row.record.revision + 1, state := link.next, jobs := linked);
          Ok(changes[c := ChangeRow(record, if link.action.None? then Some(id) else row.workflow)])
  }

  function SubmitLinkedJob(db: Db, key: string, id: JobId, request: NewJob, link: Option<ChangeLink>)
    : (r: Result<Submission, StoreError>)
  {
    var receipt := SubmissionKey(request.principal, key);
    if !ValidNewJob(key, request) then Err(InvalidRequest)
    else if receipt in db.receipts then
      if db.receipts[receipt].hash != HashOf(request) then Err(KeyConflict)
      else Ok(Submission(db, db.receipts[receipt].job, false))
    else if id in db.jobs then Err(IdConflict)
    else
      var jobs := db.jobs[id := FreshJob(request)];
      var changes := if link.Some? then LinkChange(jobs, db.changes, request.principal, id, link.value) else Ok(db.changes);
      if changes.Err? then Err(changes.error)
      else Ok(Submission(InsertJob(db, receipt, id, request, changes.value), id, true))
  }

  function InsertJob(db: Db, receipt: SubmissionKey, id: JobId, request: NewJob, changes: map<ChangeId, ChangeRow>): (r: Db) {
    db.(jobs := db.jobs[id := FreshJob(request)],
        events := db.events + [JobEvent(id, Submitted, Queued)],
        receipts := db.receipts[receipt := Receipt(HashOf(request), id)],
        changes := changes)
  }

  function AcceptJob(db: Db, id: JobId, request: NewJob): (r: Result<Submission, StoreError>) {
    if !ValidNewJob("upstream-job-id", request) then Err(InvalidRequest)
    else if id in db.jobs then
      if db.jobs[id].hash != HashOf(request) then Err(IdConflict) else Ok(Submission(db, id, false))
    else
      Ok(Submission(
        db.(jobs := db.jobs[id := FreshJob(request)], events := db.events + [JobEvent(id, Submitted, Queued)]),
        id, true))
  }

  // ---------------------------------------------------------------- job transitions

  function TransitionJob(db: Db, id: JobId, expected: nat, next: JobState, result: Option<Evidence>)
    : (r: Result<Db, StoreError>)
  {
    if id !in db.jobs then Err(NotFound)
    else
      var job := db.jobs[id];
      if job.revision != expected then Err(RevisionChanged)
      else if !CanStep(job.state, next) then Err(InvalidTransition)
      else
        var kind := if job.state == Reconciling || job.state == OutcomeUnknown then Reconciled else StateChanged;
        Ok(db.(jobs := db.jobs[id := job.(state := next, revision := job.revision + 1, result := result)],
               events := db.events + [JobEvent(id, kind, next)]))
  }

  function RequestCancel(db: Db, id: JobId, expected: nat, reason: string): (r: Result<Db, StoreError>) {
    if !Bounded(reason, 1024) then Err(InvalidRequest)
    else if id !in db.jobs then Err(NotFound)
    else
      var job := db.jobs[id];
      if job.revision != expected then Err(RevisionChanged)
      else if IsTerminal(job.state) then Err(TerminalJob)
      else
        Ok(db.(jobs := db.jobs[id := job.(cancelRequested := true, revision := job.revision + 1)],
               events := db.events + [JobEvent(id, CancelRequested, job.state)]))
  }

  // ---------------------------------------------------------------- locks

  datatype Acquisition = Acquisition(db: Db, acquired: bool)

  function TryAcquire(db: Db, resource: Resource, owner: JobId): (r: Result<Acquisition, StoreError>) {
    if resource.kind == [] || resource.key == [] then Err(InvalidRequest)
    else if resource in db.locks && db.locks[resource].owner in db.jobs then
      var lock := db.locks[resource];
      if lock.owner == owner then Ok(Acquisition(db, true))
      else if !IsTerminal(db.jobs[lock.owner].state) then Ok(Acquisition(db, false))
      else if owner !in db.jobs then Err(ForeignKey)
      else Ok(Acquisition(db.(locks := db.locks[resource := Lock(owner, lock.revision + 1)]), true))
    else if owner !in db.jobs || resource in db.locks then Err(ForeignKey)
    else Ok(Acquisition(db.(locks := db.locks[resource := Lock(owner, 1)]), true))
  }

  function Release(db: Db, resource: Resource, owner: JobId): (r: Db) {
    if resource in db.locks && db.locks[resource].owner == owner
    then db.(locks := db.locks - {resource})
    else db
  }

  // ---------------------------------------------------------------- changes

  function CreateChange(db: Db, plan: Plan, creator: string, prepare: JobId): (r: Result<Db, StoreError>) {
    if !Bounded(creator, 128) then Err(InvalidRequest)
    else if plan.changeId in db.changes then Err(IdConflict)
    else
      var record := ChangeRecord(plan, creator, 1, Checking, None, ChangeJobs(Some(prepare), None, None, None, None));
      Ok(db.(changes := db.changes[plan.changeId := ChangeRow(record, None)]))
  }

  function TransitionChange(db: Db, id: ChangeId, creator: string, u: ChangeUpdate): (r: Result<Db, StoreError>) {
    if id !in db.changes || db.changes[id].record.creator != creator then Err(NotFound)
    else
      var row := db.changes[id];
      if row.record.revision != u.expected then Err(RevisionChanged)
      else if row.record.state != u.next && !CanAdvance(row.record.state, u.next) then Err(InvalidTransition)
      else
        var record := ChangeRecord(u.plan, creator, u.expected + 1, u.next, u.artifact, u.jobs);
        Ok(db.(changes := db.changes[id := ChangeRow(record, row.workflow)]))
  }

  // ---------------------------------------------------------------- any transaction

  datatype Op =
    | DoSubmit(key: string, id: JobId, request: NewJob, link: Option<ChangeLink>)
    | DoAccept(id: JobId, request: NewJob)
    | DoTransition(id: JobId, expected: nat, next: JobState, result: Option<Evidence>)
    | DoCancel(id: JobId, expected: nat, reason: string)
    | DoAcquire(resource: Resource, owner: JobId)
    | DoRelease(resource: Resource, owner: JobId)
    | DoCreateChange(plan: Plan, creator: string, prepare: JobId)
    | DoTransitionChange(change: ChangeId, creator: string, update: ChangeUpdate)

  // The tables after one transaction; a refused one rolls back.

  function AfterSubmit(db: Db, key: string, id: JobId, request: NewJob, link: Option<ChangeLink>): (r: Db) {
    var s := SubmitLinkedJob(db, key, id, request, link);
    if s.Ok? then s.value.db else db
  }

  function AfterAccept(db: Db, id: JobId, request: NewJob): (r: Db) {
    var s := AcceptJob(db, id, request);
    if s.Ok? then s.value.db else db
  }

  function AfterTransition(db: Db, id: JobId, expected: nat, next: JobState, result: Option<Evidence>): (r: Db) {
    var s := TransitionJob(db, id, expected, next, result);
    if s.Ok? then s.value else db
  }

  function AfterCancel(db: Db, id: JobId, expected: nat, reason: string): (r: Db) {
    var s := RequestCancel(db, id, expected, reason);
    if s.Ok? then s.value else db
  }

  function AfterAcquire(db: Db, resource: Resource, owner: JobId): (r: Db) {
    var s := TryAcquire(db, resource, owner);
    if s.Ok? then s.value.db else db
  }

  function AfterCreate(db: Db, plan: Plan, creator: string, prepare: JobId): (r: Db) {
    var s := CreateChange(db, plan, creator, prepare);
    if s.Ok? then s.value else db
  }

  function AfterUpdate(db: Db, change: ChangeId, creator: string, update: ChangeUpdate): (r: Db) {
    var s := TransitionChange(db, change, creator, update);
    if s.Ok? then s.value else db
  }

  function Apply(db: Db, op: Op): (r: Db) {
    match op
    case DoSubmit(key, id, request, link) => AfterSubmit(db, key, id, request, link)
    case DoAccept(id, request) => AfterAccept(db, id, request)
    case DoTransition(id, expected, next, result) => AfterTransition(db, id, expected, next, result)
    case DoCancel(id, expected, reason) => AfterCancel(db, id, expected, reason)
    case DoAcquire(resource, owner) => AfterAcquire(db, resource, owner)
    case DoRelease(resource, owner) => Release(db, resource, owner)
    case DoCreateChange(plan, creator, prepare) => AfterCreate(db, plan, creator, prepare)
    case DoTransitionChange(change, creator, update) => AfterUpdate(db, change, creator, update)
  }

  function Run(db: Db, ops: seq<Op>): (r: Db)
    decreases |ops|
  {
    if ops == [] then db else Run(Apply(db, ops[0]), ops[1..])
  }
}
