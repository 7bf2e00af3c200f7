/**
 When each transaction of the store commits, which refusal it gives otherwise,
 and the rows a commit leaves, stated on the tables and, for ownership and
 locks, on the history of a whole run.
 */
module StoreAnswers {
  import opened Wrappers
  import opened Jobs
  import opened Changes
  import opened CanonicalJson
  import opened Utf8
  import opened StoreModel
  import opened StoreProofs

  // ---------------------------------------------------------------- requests and rows

  /** Both requests ask the same host for the same thing, up to the order of object keys. */
  ghost predicate SameAsked(a: NewJob, b: NewJob) {
    && a.host == b.host && a.operation == b.operation && a.specVersion == b.specVersion
    && (if a.spec.Plain? && b.spec.Plain? then Meaning(a.spec.json) == Meaning(b.spec.json) else a.spec == b.spec)
  }

  /** The row stands for the request, unstarted. */
  ghost predicate Holds(job: Job, request: NewJob) {
    && SubmitRequest(job) == request.(spec := CanonicalSpec(request.spec))
    && SameAsked(SubmitRequest(job), request)
    && job.hash == HashOf(request)
    && job.state == Queued && job.revision == 1 && !job.cancelRequested && job.result.None?
  }

  lemma FreshHolds(request: NewJob)
    ensures Holds(FreshJob(request), request)
  {
    RedispatchKeepsHash(request);
    HashDecidesRequest(SubmitRequest(FreshJob(request)), request);
  }

  /** One job and its first event were added; the other jobs and events are as before. */
  ghost predicate JobArrived(db: Db, db': Db, id: JobId, request: NewJob) {
    && id !in db.jobs && id in db'.jobs && Holds(db'.jobs[id], request)
    && db'.jobs == db.jobs[id := db'.jobs[id]]
    && db'.events == db.events + [JobEvent(id, Submitted, Queued)]
    && db'.locks == db.locks
  }

  // ---------------------------------------------------------------- accepting and submitting

  /** An executor takes a job once, and a repeat only if it asks for the same thing. */
  lemma AcceptExactly(db: Db, id: JobId, request: NewJob, first: NewJob)
    requires id in db.jobs ==> db.jobs[id].hash == HashOf(first)
    ensures
      var r := AcceptJob(db, id, request);
      var valid := ValidNewJob("upstream-job-id", request);
      && (r == Err(InvalidRequest) <==> !valid)
      && (r == Err(IdConflict) <==> valid && id in db.jobs && !SameAsked(request, first))
      && (r.Ok? <==> valid && (id in db.jobs ==> SameAsked(request, first)))
      && (r.Ok? ==> r.value.id == id && r.value.created == (id !in db.jobs))
      && (r.Ok? && id in db.jobs ==> r.value.db == db)
      && (r.Ok? && id !in db.jobs ==> JobArrived(db, r.value.db, id, request)
                                      && r.value.db.receipts == db.receipts && r.value.db.changes == db.changes)
  {
    HashDecidesRequest(request, first);
    FreshHolds(request);
  }

  /** The step of the change graph a link asks for. */
  predicate LinkFits(db: Db, principal: string, link: ChangeLink) {
    var c := link.change.plan.changeId;
    && c in db.changes && db.changes[c].record.creator == principal
    && db.changes[c].record.revision == link.change.revision
    && (link.change.state == link.next || CanAdvance(link.change.state, link.next))
  }

  /** The ownership rule on the recorded workflow of the change. */
  predicate OwnerAdmits(db: Db, link: ChangeLink)
    requires link.change.plan.changeId in db.changes
  {
    var owner := db.changes[link.change.plan.changeId].workflow;
    match link.workflow
    case Some(w) => owner == Some(w) && w in db.jobs && db.jobs[w].state == Running && !db.jobs[w].cancelRequested
    case None => owner.Some? && owner.value in db.jobs ==> IsSettled(db.jobs[owner.value].state)
  }

  predicate LinkAdmitted(db: Db, principal: string, link: ChangeLink) {
    LinkFits(db, principal, link) && OwnerAdmits(db, link)
  }

  /** The job a link files under its stage; every other stage keeps its job. */
  predicate Filed(before: ChangeJobs, after: ChangeJobs, action: DeploymentAction, id: JobId) {
    && JobFor(after, action) == Some(id)
    && forall other: DeploymentAction :: other != action ==> JobFor(after, other) == JobFor(before, other)
  }

  function JobFor(jobs: ChangeJobs, action: DeploymentAction): (id: Option<JobId>) {
    match action
    case Prepare => jobs.prepare
    case Build => jobs.build
    case Activate => jobs.activate
    case Verify => jobs.verify
    case Rollback => jobs.rollback
  }

  lemma LinkFiles(jobs: ChangeJobs, action: DeploymentAction, id: JobId)
    ensures Filed(jobs, LinkJob(jobs, action, id), action, id)
  {
  }

  /** One change row moved on by a link; its plan, artifact and creator and every other row stay. */
  predicate LinkRecorded(db: Db, db': Db, id: JobId, link: ChangeLink) {
    var c := link.change.plan.changeId;
    && c in db.changes && c in db'.changes && db'.changes == db.changes[c := db'.changes[c]]
    && (var was, now := db.changes[c], db'.changes[c];
        && now.record.revision == was.record.revision + 1 && now.record.state == link.next
        && now.record == was.record.(revision := now.record.revision, state := link.next, jobs := now.record.jobs)
        && (if link.action.None? then now.workflow == Some(id) && now.record.jobs == link.change.jobs
            else now.workflow == was.workflow && Filed(link.change.jobs, now.record.jobs, link.action.value, id)))
  }

  /**
   A submission answers from its receipt when the key is known, and otherwise
   commits the job with its link exactly when the job is valid and new and the
   link is admitted.
   */
  lemma SubmitExactly(db: Db, key: string, id: JobId, request: NewJob, link: Option<ChangeLink>)
    requires Inv(db)
    ensures
      var r := SubmitLinkedJob(db, key, id, request, link);
      var k := SubmissionKey(request.principal, key);
      var unseen := ValidNewJob(key, request) && k !in db.receipts && id !in db.jobs;
      && (r == Err(InvalidRequest) <==> !ValidNewJob(key, request))
      && (r == Err(KeyConflict) <==>
            ValidNewJob(key, request) && k in db.receipts && !SameAsked(request, SubmitRequest(db.jobs[db.receipts[k].job])))
      && (r == Err(IdConflict) <==> ValidNewJob(key, request) && k !in db.receipts && id in db.jobs)
      && (r.Ok? && r.value.created <==> unseen && (link.Some? ==> LinkAdmitted(db, request.principal, link.value)))
      && (r.Ok? && !r.value.created ==> k in db.receipts && r.value.db == db && r.value.id == db.receipts[k].job)
      && (r.Ok? && r.value.created ==>
            && JobArrived(db, r.value.db, id, request) && r.value.id == id
            && r.value.db.receipts == db.receipts[k := Receipt(HashOf(request), id)]
            && (if link.None? then r.value.db.changes == db.changes else LinkRecorded(db, r.value.db, id, link.value)))
  {
    FreshHolds(request);
    var k := SubmissionKey(request.principal, key);
    if k in db.receipts {
      ReceiptHash(db, k);
      HashDecidesRequest(request, SubmitRequest(db.jobs[db.receipts[k].job]));
    } else if id !in db.jobs && link.Some? {
      LinkExactly(db, id, request, link.value);
    }
  }

  lemma ReceiptHash(db: Db, k: SubmissionKey)
    requires Inv(db) && k in db.receipts
    ensures db.receipts[k].job in db.jobs && db.receipts[k].hash == HashOf(SubmitRequest(db.jobs[db.receipts[k].job]))
  {
    assert JobRebuilt(db.jobs[db.receipts[k].job], LogOf(db.events, db.receipts[k].job));
  }

  /** The link of a new job, with the refusal of each check in the order the store makes them. */
  lemma LinkExactly(db: Db, id: JobId, request: NewJob, link: ChangeLink)
    requires OwnersLinked(db.changes, db.jobs) && id !in db.jobs
    ensures
      var c := link.change.plan.changeId;
      var r := LinkChange(db.jobs[id := FreshJob(request)], db.changes, request.principal, id, link);
      var found := c in db.changes && db.changes[c].record.creator == request.principal;
      var current := found && db.changes[c].record.revision == link.change.revision;
      && (r == Err(NotFound) <==> !found)
      && (r == Err(RevisionChanged) <==> found && !current)
      && (r == Err(OwnershipChanged) <==> current && link.workflow.Some? && db.changes[c].workflow != link.workflow)
      && (r == Err(WorkflowNotRunning) <==> current && link.workflow.Some? && db.changes[c].workflow == link.workflow
                                            && !OwnerAdmits(db, link))
      && (r == Err(OwnedByWorkflow) <==> current && link.workflow.None? && !OwnerAdmits(db, link))
      && (r == Err(InvalidTransition) <==> current && OwnerAdmits(db, link) && !LinkFits(db, request.principal, link))
      && (r.Ok? <==> LinkAdmitted(db, request.principal, link))
      && (r.Ok? ==> LinkRecorded(db, db.(changes := r.value), id, link))
  {
    if link.action.Some? {
      LinkFiles(link.change.jobs, link.action.value, id);
    }
  }

  // ---------------------------------------------------------------- ownership over a whole run

  /** The recorded owner of a change is one of the workflows that claimed it. */
  ghost predicate OwnerClaimed(l: Ledger) {
    forall c :: c in l.db.changes && l.db.changes[c].workflow.Some? ==> l.db.changes[c].workflow.value in ClaimsOf(l, c)
  }

  lemma RecordKeepsClaimed(l: Ledger, op: Op)
    requires Linked(l.db) && OwnerClaimed(l) && Admissible(op)
    ensures OwnerClaimed(Record(l, op))
  {
    match op
    case DoSubmit(key, id, request, link) =>
      if SubmitLinkedJob(l.db, key, id, request, link).Ok? {
        SubmitEffect(l.db, key, id, request, link);
      }
    case DoTransitionChange(change, creator, update) =>
      if TransitionChange(l.db, change, creator, update).Ok? {
        UpdateEffect(l.db, change, creator, update);
      }
    case DoCreateChange(plan, creator, prepare) =>
    case _ => JobOpsKeepChanges(l.db, op);
  }

  lemma {:induction false} RunKeepsClaimed(l: Ledger, ops: seq<Op>)
    requires Inv(l.db) && OwnerClaimed(l)
    requires forall i :: 0 <= i < |ops| ==> Admissible(ops[i])
    ensures OwnerClaimed(RecordAll(l, ops))
    decreases |ops|
  {
    if ops != [] {
      ApplyKeepsInv(l.db, ops[0]);
      RecordKeepsClaimed(l, ops[0]);
      RunKeepsClaimed(Record(l, ops[0]), ops[1..]);
    }
  }

  /**
   After any run from the empty store, a new stage of a change is linked by a
   workflow exactly when that workflow claimed the change and is running and
   uncancelled, and without a workflow exactly when every workflow that ever
   claimed the change has settled; in both cases at the current revision and by
   a legal step.
   */
  lemma StageIsLinkedExactly(ops: seq<Op>, key: string, id: JobId, request: NewJob, link: ChangeLink)
    requires forall i :: 0 <= i < |ops| ==> Admissible(ops[i])
    requires
      var db := RecordAll(Ledger(EMPTY, map[]), ops).db;
      ValidNewJob(key, request) && SubmissionKey(request.principal, key) !in db.receipts && id !in db.jobs
    ensures
      var l := RecordAll(Ledger(EMPTY, map[]), ops);
      var claims := ClaimsOf(l, link.change.plan.changeId);
      && (forall j :: j in claims ==> j in l.db.jobs)
      && (SubmitLinkedJob(l.db, key, id, request, Some(link)).Ok? <==>
            && LinkFits(l.db, request.principal, link)
            && (match link.workflow
                case Some(w) => w in claims && l.db.jobs[w].state == Running && !l.db.jobs[w].cancelRequested
                case None => forall j :: j in claims ==> IsSettled(l.db.jobs[j].state)))
  {
    var start := Ledger(EMPTY, map[]);
    OneLiveWorkflow(start, ops);
    RunKeepsClaimed(start, ops);
    StageRule(RecordAll(start, ops), key, id, request, link);
  }

  /** The recorded owner decides what the history of claims says. */
  lemma ClaimsDecide(l: Ledger, link: ChangeLink)
    requires Linked(l.db) && Fenced(l) && OwnerClaimed(l)
    ensures
      var claims := ClaimsOf(l, link.change.plan.changeId);
      && (forall j :: j in claims ==> j in l.db.jobs)
      && (link.change.plan.changeId in l.db.changes ==>
            (OwnerAdmits(l.db, link) <==>
               match link.workflow
               case Some(w) => w in claims && l.db.jobs[w].state == Running && !l.db.jobs[w].cancelRequested
               case None => forall j :: j in claims ==> IsSettled(l.db.jobs[j].state)))
  {
    var c := link.change.plan.changeId;
    forall j | j in ClaimsOf(l, c) ensures FencedAt(l.db, c, j) {}
  }

  lemma StageRule(l: Ledger, key: string, id: JobId, request: NewJob, link: ChangeLink)
    requires Inv(l.db) && Fenced(l) && OwnerClaimed(l)
    requires ValidNewJob(key, request) && SubmissionKey(request.principal, key) !in l.db.receipts && id !in l.db.jobs
    ensures
      var claims := ClaimsOf(l, link.change.plan.changeId);
      && (forall j :: j in claims ==> j in l.db.jobs)
      && (SubmitLinkedJob(l.db, key, id, request, Some(link)).Ok? <==>
            && LinkFits(l.db, request.principal, link)
            && (match link.workflow
                case Some(w) => w in claims && l.db.jobs[w].state == Running && !l.db.jobs[w].cancelRequested
                case None => forall j :: j in claims ==> IsSettled(l.db.jobs[j].state)))
  {
    SubmitExactly(l.db, key, id, request, Some(link));
    ClaimsDecide(l, link);
  }

  // ---------------------------------------------------------------- job transitions

  /** A transition commits exactly at the row's revision along the graph, and moves only that row. */
  lemma TransitionExactly(db: Db, id: JobId, expected: nat, next: JobState, result: Option<Evidence>)
    ensures
      var r := TransitionJob(db, id, expected, next, result);
      && (r == Err(NotFound) <==> id !in db.jobs)
      && (r == Err(RevisionChanged) <==> id in db.jobs && db.jobs[id].revision != expected)
      && (r == Err(InvalidTransition) <==>
            id in db.jobs && db.jobs[id].revision == expected && !CanStep(db.jobs[id].state, next))
      && (r.Ok? <==> id in db.jobs && db.jobs[id].revision == expected && CanStep(db.jobs[id].state, next))
      && (r.Ok? ==> JobMoved(db, r.value, id)
                    && r.value.jobs[id].state == next && r.value.jobs[id].result == result
                    && r.value.jobs[id].cancelRequested == db.jobs[id].cancelRequested)
  {
  }

  /** One row went one revision further under its identity, with one event; the other tables and rows stay. */
  predicate JobMoved(db: Db, db': Db, id: JobId) {
    && id in db.jobs && id in db'.jobs && db'.jobs == db.jobs[id := db'.jobs[id]]
    && SameIdentity(db.jobs[id], db'.jobs[id]) && db'.jobs[id].revision == db.jobs[id].revision + 1
    && |db'.events| == |db.events| + 1 && db.events <= db'.events && db'.events[|db.events|].job == id
    && db'.receipts == db.receipts && db'.changes == db.changes && db'.locks == db.locks
  }

  /** A cancellation is recorded exactly for a nonterminal job at its revision. */
  lemma CancelExactly(db: Db, id: JobId, expected: nat, reason: string)
    ensures
      var r := RequestCancel(db, id, expected, reason);
      var at := Bounded(reason, 1024) && id in db.jobs && db.jobs[id].revision == expected;
      && (r == Err(InvalidRequest) <==> !Bounded(reason, 1024))
      && (r == Err(NotFound) <==> Bounded(reason, 1024) && id !in db.jobs)
      && (r == Err(RevisionChanged) <==> Bounded(reason, 1024) && id in db.jobs && db.jobs[id].revision != expected)
      && (r == Err(TerminalJob) <==> at && IsTerminal(db.jobs[id].state))
      && (r.Ok? <==> at && !IsTerminal(db.jobs[id].state))
      && (r.Ok? ==> JobMoved(db, r.value, id) && r.value.jobs[id].cancelRequested
                    && r.value.jobs[id].state == db.jobs[id].state && r.value.jobs[id].result == db.jobs[id].result)
  {
  }

  // ---------------------------------------------------------------- changes

  lemma CreateExactly(db: Db, plan: Plan, creator: string, prepare: JobId)
    ensures
      var r := CreateChange(db, plan, creator, prepare);
      var c := plan.changeId;
      && (r == Err(InvalidRequest) <==> !Bounded(creator, 128))
      && (r == Err(IdConflict) <==> Bounded(creator, 128) && c in db.changes)
      && (r.Ok? <==> Bounded(creator, 128) && c !in db.changes)
      && (r.Ok? ==>
            && c in r.value.changes && r.value == db.(changes := db.changes[c := r.value.changes[c]])
            && (var row := r.value.changes[c];
                && row.workflow.None? && row.record.plan == plan && row.record.creator == creator
                && row.record.revision == 1 && row.record.state == Checking && row.record.artifact.None?
                && JobFor(row.record.jobs, Prepare) == Some(prepare)
                && forall a: DeploymentAction :: a != Prepare ==> JobFor(row.record.jobs, a).None?))
  {
  }

  /** An update commits exactly for the creator, at the row's revision, along the graph; the owner stays. */
  lemma UpdateExactly(db: Db, id: ChangeId, creator: string, u: ChangeUpdate)
    ensures
      var r := TransitionChange(db, id, creator, u);
      var found := id in db.changes && db.changes[id].record.creator == creator;
      var legal := found && (db.changes[id].record.state == u.next || CanAdvance(db.changes[id].record.state, u.next));
      && (r == Err(NotFound) <==> !found)
      && (r == Err(RevisionChanged) <==> found && db.changes[id].record.revision != u.expected)
      && (r == Err(InvalidTransition) <==> found && db.changes[id].record.revision == u.expected && !legal)
      && (r.Ok? <==> legal && db.changes[id].record.revision == u.expected)
      && (r.Ok? ==>
            && id in r.value.changes && r.value == db.(changes := db.changes[id := r.value.changes[id]])
            && (var row := r.value.changes[id];
                && row.workflow == db.changes[id].workflow && row.record.creator == db.changes[id].record.creator
                && row.record.revision == db.changes[id].record.revision + 1
                && row.record.plan == u.plan && row.record.state == u.next
                && row.record.artifact == u.artifact && row.record.jobs == u.jobs))
  {
  }

  // ---------------------------------------------------------------- locks

  predicate HeldBy(db: Db, r: Resource, owner: JobId) { r in db.locks && db.locks[r].owner == owner }

  /** Nobody, or only a job that has ended, holds the resource. */
  predicate Vacant(db: Db, r: Resource) {
    r in db.locks ==> db.locks[r].owner in db.jobs && IsTerminal(db.jobs[db.locks[r].owner].state)
  }

  /**
   An acquisition succeeds exactly for the holder, and for a known job when
   nobody or an ended job holds the resource; a live holder makes it answer no.
   */
  lemma AcquireExactly(db: Db, r: Resource, owner: JobId)
    requires Linked(db)
    ensures
      var a := TryAcquire(db, r, owner);
      var named := r.kind != [] && r.key != [];
      && (a == Err(InvalidRequest) <==> !named)
      && (a == Err(ForeignKey) <==> named && owner !in db.jobs && Vacant(db, r))
      && (a.Ok? && a.value.acquired <==> named && (HeldBy(db, r, owner) || (owner in db.jobs && Vacant(db, r))))
      && (a.Ok? && !a.value.acquired <==> named && !HeldBy(db, r, owner) && !Vacant(db, r))
      && (a.Ok? && a.value.acquired ==> HeldBy(a.value.db, r, owner))
      && (a.Ok? && (HeldBy(db, r, owner) || !a.value.acquired) ==> a.value.db == db)
      && (a.Ok? && !HeldBy(db, r, owner) && a.value.acquired ==>
            a.value.db == db.(locks := db.locks[r := Lock(owner, if r in db.locks then db.locks[r].revision + 1 else 1)]))
  {
  }

  /**
   Over any run in which the holder does not release its lock, it keeps it until
   it ends, and until then every other acquisition is refused.
   */
  lemma {:induction false} LockOutlivesRun(db: Db, r: Resource, owner: JobId, ops: seq<Op>)
    requires Inv(db) && HeldBy(db, r, owner)
    requires forall i :: 0 <= i < |ops| ==> ops[i] != DoRelease(r, owner)
    ensures
      var db' := Run(db, ops);
      && owner in db'.jobs
      && (IsTerminal(db'.jobs[owner].state) || HeldBy(db', r, owner))
      && (!IsTerminal(db'.jobs[owner].state) ==>
            forall other :: other != owner ==> !(TryAcquire(db', r, other).Ok? && TryAcquire(db', r, other).value.acquired))
    decreases |ops|
  {
    if IsTerminal(db.jobs[owner].state) {
      RunExtends(db, ops);
      assert JobAdvances(db.jobs[owner], Run(db, ops).jobs[owner]);
    } else if ops != [] {
      LiveLockIsKept(db, ops[0], r);
      ApplyKeepsInv(db, ops[0]);
      LockOutlivesRun(Apply(db, ops[0]), r, owner, ops[1..]);
    } else {
      forall other | other != owner ensures !(TryAcquire(db, r, other).Ok? && TryAcquire(db, r, other).value.acquired) {
        AcquireExactly(db, r, other);
      }
    }
  }

  /** A release by the holder frees exactly that resource; any other changes nothing. */
  lemma ReleaseExactly(db: Db, r: Resource, owner: JobId)
    ensures
      var db' := Release(db, r, owner);
      && db' == db.(locks := db'.locks)
      && (forall q :: q in db'.locks <==> q in db.locks && !(q == r && HeldBy(db, r, owner)))
      && (forall q :: q in db'.locks ==> db'.locks[q] == db.locks[q])
  {
  }
}
