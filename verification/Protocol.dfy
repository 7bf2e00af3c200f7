/**
 The Hub/executor protocol: a Hub store, one store per executor host, and a wire
 that loses, duplicates, delays and reorders messages.  A message stays on the
 wire for ever; losing it is never delivering it.
 */
module Protocol {
  import opened Wrappers
  import opened Jobs
  import opened StoreModel
  import opened StoreProofs
  import DurableStore
  import opened Utf8

  datatype Message =
    | SubmitMessage(id: JobId, request: NewJob)
    | SnapshotMessage(id: JobId, job: Job)

  datatype Net = Net(
    hub: Db,
    executors: map<string, Db>,
    wire: set<Message>,
    tasks: set<JobId>,        // dispatch tasks of the running Hub process
    authorized: set<JobId>)   // jobs the configuration of this process still permits

  datatype Step =
    | ClientSubmit(key: string, submitted: JobId, request: NewJob, link: Option<ChangeLink>)
    | HubSpawn(id: JobId)
    | HubRefuse(id: JobId, expected: nat)
    | HubDispatch(id: JobId, expected: nat)
    | HubSend(id: JobId)
    | HubLoseAcknowledgement(id: JobId, expected: nat)
    | HubProject(message: Message, expected: nat)
    | HubCancel(id: JobId, expected: nat, reason: string)
    | HubLocal(id: JobId, expected: nat, next: JobState, result: Option<Evidence>)
    | HubRestart(authorized: set<JobId>)
    | ExecutorAccept(message: Message)
    | ExecutorStep(host: string, op: Op)
    | ExecutorReply(host: string, id: JobId)

  // ---------------------------------------------------------------- projection

  /** The next commit of a projection, if any. */
  function ProjectionTarget(current: JobState, target: JobState): (next: Option<JobState>) {
    if current == target then None
    else if target == OutcomeUnknown && !CanStep(current, OutcomeUnknown) && CanStep(current, Reconciling)
    then Some(Reconciling)
    else if CanStep(current, target) then Some(target)
    else None
  }

  predicate SameJob(current: Job, target: Job) {
    current.host == target.host && current.hash == target.hash
  }

  /** One commit of the projection of an executor snapshot into the Hub record. */
  function ProjectOnce(hub: Db, id: JobId, expected: nat, target: Job): (r: Db) {
    if id !in hub.jobs || hub.jobs[id].revision != expected || !SameJob(hub.jobs[id], target) then hub
    else
      var next := ProjectionTarget(hub.jobs[id].state, target.state);
      if next.None? then hub else AfterTransition(hub, id, expected, next.value, target.result)
  }

  /** The projection of a snapshot: one commit, or two on the way to an unknown outcome. */
  function Project(hub: Db, id: JobId, revision: nat, target: Job): (r: Db) {
    var once := ProjectOnce(hub, id, revision, target);
    if target.state == OutcomeUnknown then ProjectOnce(once, id, revision + 1, target) else once
  }

  /** An unknown outcome is reached through Reconciling. */
  predicate NeedsReconciling(current: JobState, target: JobState) {
    target == OutcomeUnknown && current != target && !CanStep(current, OutcomeUnknown) && CanStep(current, Reconciling)
  }

  lemma ProjectDirectly(hub: Db, id: JobId, target: Job)
    requires id in hub.jobs && SameJob(hub.jobs[id], target) && !NeedsReconciling(hub.jobs[id].state, target.state)
    ensures
      var job := hub.jobs[id];
      Project(hub, id, job.revision, target) ==
        if job.state != target.state && CanStep(job.state, target.state)
        then AfterTransition(hub, id, job.revision, target.state, target.result) else hub
  {
    var job := hub.jobs[id];
    var once := ProjectOnce(hub, id, job.revision, target);
    if target.state == OutcomeUnknown {
      assert once.jobs[id].state == target.state || once.jobs[id].revision == job.revision;
    }
  }

  lemma ProjectThroughReconciling(hub: Db, id: JobId, target: Job)
    requires id in hub.jobs && SameJob(hub.jobs[id], target) && NeedsReconciling(hub.jobs[id].state, target.state)
    ensures
      var job := hub.jobs[id];
      var middle := AfterTransition(hub, id, job.revision, Reconciling, target.result);
      && TransitionJob(hub, id, job.revision, Reconciling, target.result) == Ok(middle)
      && id in middle.jobs
      && middle.jobs[id] == job.(state := Reconciling, revision := job.revision + 1, result := target.result)
      && Project(hub, id, job.revision, target) ==
           AfterTransition(middle, id, job.revision + 1, OutcomeUnknown, target.result)
  {
  }

  /** `project_target_job`: each commit starts from the record the last one returned. */
  method ProjectTargetJob(store: DurableStore.Store, id: JobId, current: Job, target: Job)
    returns (r: Result<Job, StoreError>)
    requires store.Valid() && id in store.jobs && JobAdvances(current, store.jobs[id])
    modifies store
    ensures store.Valid() && id in store.jobs
    ensures !SameJob(current, target) ==> r == Err(IdConflict)
    ensures !SameJob(current, target) || old(store.jobs[id]) != current ==> store.Tables() == old(store.Tables())
    ensures old(store.jobs[id]) == current && SameJob(current, target) ==>
      r == Ok(store.jobs[id]) && store.Tables() == Project(old(store.Tables()), id, current.revision, target)
  {
    ghost var before := store.Tables();
    if !SameJob(current, target) {
      return Err(IdConflict);
    }
    if NeedsReconciling(current.state, target.state) {
      if store.jobs[id] == current {
        ProjectThroughReconciling(before, id, target);
      }
      r := ProjectUnknown(store, id, current, target);
      return;
    }
    if store.jobs[id] == current {
      ProjectDirectly(before, id, target);
    }
    if current.state == target.state || !CanStep(current.state, target.state) {
      return Ok(current);
    }
    r := store.TransitionJob(id, current.revision, target.state, target.result);
  }

  /** The two commits of an outcome that became unknown. */
  method ProjectUnknown(store: DurableStore.Store, id: JobId, current: Job, target: Job)
    returns (r: Result<Job, StoreError>)
    requires store.Valid() && id in store.jobs && JobAdvances(current, store.jobs[id])
    requires NeedsReconciling(current.state, target.state)
    modifies store
    ensures store.Valid() && id in store.jobs
    ensures old(store.jobs[id]) != current ==> store.Tables() == old(store.Tables())
    ensures old(store.jobs[id]) == current ==>
      var middle := AfterTransition(old(store.Tables()), id, current.revision, Reconciling, target.result);
      && r == Ok(store.jobs[id])
      && store.Tables() == AfterTransition(middle, id, current.revision + 1, OutcomeUnknown, target.result)
  {
    var moved := store.TransitionJob(id, current.revision, Reconciling, target.result);
    if moved.Err? {
      return Err(moved.error);
    }
    r := store.TransitionJob(id, moved.value.revision, OutcomeUnknown, target.result);
  }

  // ---------------------------------------------------------------- steps

  function ExecutorDb(s: Net, host: string): (db: Db) {
    if host in s.executors then s.executors[host] else EMPTY
  }

  predicate Remote(hub: Db, id: JobId) {
    id in hub.jobs && !IsLocal(hub.jobs[id].operation)
  }

  function Next(s: Net, step: Step): (r: Net) {
    match step
    case ClientSubmit(key, id, request, link) => s.(hub := AfterSubmit(s.hub, key, id, request, link))
    case HubSpawn(id) =>
      if Remote(s.hub, id) && !IsTerminal(s.hub.jobs[id].state) then s.(tasks := s.tasks + {id}) else s
    case HubRefuse(id, expected) =>
      if id in s.tasks && id !in s.authorized && id in s.hub.jobs && s.hub.jobs[id].state == Queued
      then s.(hub := AfterTransition(s.hub, id, expected, Cancelled, Some(NotStarted))) else s
    case HubDispatch(id, expected) =>
      if id in s.tasks && id in s.authorized && id in s.hub.jobs && s.hub.jobs[id].state == Queued
      then s.(hub := AfterTransition(s.hub, id, expected, Dispatching, None)) else s
    case HubSend(id) =>
      if id in s.tasks && id in s.authorized && id in s.hub.jobs && s.hub.jobs[id].state != Queued
      then s.(wire := s.wire + {SubmitMessage(id, SubmitRequest(s.hub.jobs[id]))}) else s
    case HubLoseAcknowledgement(id, expected) =>
      if id in s.tasks && id in s.authorized && id in s.hub.jobs && s.hub.jobs[id].state != Queued
      then s.(hub := AfterTransition(s.hub, id, expected, Reconciling, None)) else s
    case HubProject(message, expected) =>
      if message in s.wire && message.SnapshotMessage? && Remote(s.hub, message.id)
      then s.(hub := ProjectOnce(s.hub, message.id, expected, message.job)) else s
    case HubCancel(id, expected, reason) => s.(hub := AfterCancel(s.hub, id, expected, reason))
    case HubLocal(id, expected, next, result) =>
      if id in s.hub.jobs && IsLocal(s.hub.jobs[id].operation)
      then s.(hub := AfterTransition(s.hub, id, expected, next, result)) else s
    case HubRestart(authorized) => s.(tasks := {}, authorized := authorized)
    case ExecutorAccept(message) =>
      if message in s.wire && message.SubmitMessage? && message.request.host in s.executors then
        var host := message.request.host;
        s.(executors := s.executors[host := AfterAccept(s.executors[host], message.id, message.request)])
      else s
    case ExecutorStep(host, op) =>
      if host in s.executors && (op.DoTransition? || op.DoCancel? || op.DoAcquire? || op.DoRelease?)
      then s.(executors := s.executors[host := Apply(s.executors[host], op)]) else s
    case ExecutorReply(host, id) =>
      if host in s.executors && id in s.executors[host].jobs
      then s.(wire := s.wire + {SnapshotMessage(id, s.executors[host].jobs[id])}) else s
  }

  function RunSteps(s: Net, steps: seq<Step>): (r: Net)
    decreases |steps|
  {
    if steps == [] then s else RunSteps(Next(s, steps[0]), steps[1..])
  }

  predicate Initial(s: Net) {
    && s.hub == EMPTY && s.wire == {} && s.tasks == {}
    && forall h :: h in s.executors ==> s.executors[h] == EMPTY
  }

  // ---------------------------------------------------------------- the invariant

  /** A Submit for this job was sent at some time. */
  predicate Sent(s: Net, id: JobId)
    requires id in s.hub.jobs
  {
    SubmitMessage(id, SubmitRequest(s.hub.jobs[id])) in s.wire
  }

  /** Rows are stored under the hash of their canonical specification. */
  predicate Hashed(db: Db) {
    forall id :: id in db.jobs ==>
      db.jobs[id].hash == HashOf(SubmitRequest(db.jobs[id])) && CanonicalSpec(db.jobs[id].spec) == db.jobs[id].spec
  }

  predicate MessageBacked(s: Net, m: Message) {
    match m
    case SubmitMessage(id, request) =>
      id in s.hub.jobs && request == SubmitRequest(s.hub.jobs[id]) && s.hub.jobs[id].state != Queued
    case SnapshotMessage(id, job) =>
      var db := ExecutorDb(s, job.host);
      id in db.jobs && JobAdvances(job, db.jobs[id])
  }

  /** An executor only knows jobs the Hub submitted to it, exactly as the Hub stored them. */
  predicate ExecutorBacked(s: Net, host: string, id: JobId)
    requires host in s.executors && id in s.executors[host].jobs
  {
    id in s.hub.jobs && s.hub.jobs[id].host == host && Sent(s, id) && SameIdentity(s.hub.jobs[id], s.executors[host].jobs[id])
  }

  /** Either the job was cancelled before any Submit, or the executor settled it this way. */
  predicate Agreed(s: Net, id: JobId)
    requires id in s.hub.jobs
  {
    var job := s.hub.jobs[id];
    var db := ExecutorDb(s, job.host);
    || (job.state == Cancelled && job.result == Some(NotStarted) && !Sent(s, id))
    || (id in db.jobs && db.jobs[id].state == job.state && db.jobs[id].result == job.result)
  }

  /** A process that may still send the job never saw it cancelled before the first Submit. */
  predicate NoLateSend(s: Net, id: JobId)
    requires id in s.hub.jobs
  {
    id in s.tasks && IsTerminal(s.hub.jobs[id].state) && !Sent(s, id) ==> id !in s.authorized
  }

  ghost predicate Safe(s: Net) {
    && Hashed(s.hub)
    && (forall id :: id in s.tasks ==> Remote(s.hub, id))
    && (forall m :: m in s.wire ==> MessageBacked(s, m))
    && (forall h, id :: h in s.executors && id in s.executors[h].jobs ==> ExecutorBacked(s, h, id))
    && (forall id :: Remote(s.hub, id) && IsSettled(s.hub.jobs[id].state) ==> Agreed(s, id))
    && (forall id :: Remote(s.hub, id) ==> NoLateSend(s, id))
  }

  // ---------------------------------------------------------------- one object at a time

  predicate RowFollows(jobs: map<JobId, Job>, jobs': map<JobId, Job>, id: JobId) {
    id in jobs ==> id in jobs' && JobAdvances(jobs[id], jobs'[id])
  }

  lemma MessageStays(s: Net, s': Net, m: Message)
    requires MessageBacked(s, m) && RowFollows(s.hub.jobs, s'.hub.jobs, m.id)
    requires m.SnapshotMessage? ==> RowFollows(ExecutorDb(s, m.job.host).jobs, ExecutorDb(s', m.job.host).jobs, m.id)
    ensures MessageBacked(s', m)
  {
  }

  lemma ExecutorStays(s: Net, s': Net, h: string, id: JobId)
    requires h in s.executors && id in s.executors[h].jobs && ExecutorBacked(s, h, id)
    requires h in s'.executors && RowFollows(s.hub.jobs, s'.hub.jobs, id)
    requires RowFollows(s.executors[h].jobs, s'.executors[h].jobs, id) && s.wire <= s'.wire
    ensures id in s'.executors[h].jobs && ExecutorBacked(s', h, id)
  {
  }

  lemma AgreedStays(s: Net, s': Net, id: JobId)
    requires id in s.hub.jobs && IsSettled(s.hub.jobs[id].state) && Agreed(s, id)
    requires id in s'.hub.jobs && s'.hub.jobs[id] == s.hub.jobs[id] && (Sent(s', id) ==> Sent(s, id))
    requires RowFollows(ExecutorDb(s, s.hub.jobs[id].host).jobs, ExecutorDb(s', s.hub.jobs[id].host).jobs, id)
    ensures Agreed(s', id)
  {
  }

  /** What a step must re-establish for one Hub job. */
  predicate HubJobSafe(s: Net, id: JobId) {
    Remote(s.hub, id) ==> NoLateSend(s, id) && (IsSettled(s.hub.jobs[id].state) ==> Agreed(s, id))
  }

  ghost predicate HubJobsSafe(s: Net) {
    forall id :: id in s.hub.jobs ==> HubJobSafe(s, id)
  }

  lemma HubJobsOf(s: Net)
    requires Safe(s)
    ensures HubJobsSafe(s)
  {
  }

  /** A step that leaves wire, tasks and executors alone leaves an untouched Hub job alone. */
  lemma HubJobStays(s: Net, s': Net, id: JobId)
    requires HubJobSafe(s, id) && id in s.hub.jobs && id in s'.hub.jobs && s'.hub.jobs[id] == s.hub.jobs[id]
    requires s'.wire == s.wire && s'.tasks == s.tasks && s'.authorized == s.authorized && s'.executors == s.executors
    ensures HubJobSafe(s', id)
  {
  }

  // ---------------------------------------------------------------- Hub transactions

  /** A Hub transaction: every row advances and every Hub job is safe again. */
  lemma HubMoves(s: Net, s': Net)
    requires Safe(s) && s' == s.(hub := s'.hub) && JobsExtend(s.hub.jobs, s'.hub.jobs) && Hashed(s'.hub)
    requires HubJobsSafe(s')
    ensures Safe(s')
  {
    forall m | m in s'.wire ensures MessageBacked(s', m) {
      ExecutorRowsStay(s, s', m);
      MessageStays(s, s', m);
    }
    forall h, id | h in s'.executors && id in s'.executors[h].jobs ensures ExecutorBacked(s', h, id) {
      assert ExecutorBacked(s, h, id);
      JobAdvancesSelf(s.executors[h].jobs[id]);
      ExecutorStays(s, s', h, id);
    }
    forall id | id in s'.tasks ensures Remote(s'.hub, id) {
      assert JobAdvances(s.hub.jobs[id], s'.hub.jobs[id]);
    }
    forall id | Remote(s'.hub, id) ensures NoLateSend(s', id) && (IsSettled(s'.hub.jobs[id].state) ==> Agreed(s', id)) {
      assert HubJobSafe(s', id);
    }
  }

  lemma ExecutorRowsStay(s: Net, s': Net, m: Message)
    requires s'.executors == s.executors
    ensures m.SnapshotMessage? ==> RowFollows(ExecutorDb(s, m.job.host).jobs, ExecutorDb(s', m.job.host).jobs, m.id)
  {
    if m.SnapshotMessage? && m.id in ExecutorDb(s, m.job.host).jobs {
      JobAdvancesSelf(ExecutorDb(s, m.job.host).jobs[m.id]);
    }
  }

  lemma AddKeepsHashed(db: Db, db': Db, id: JobId, request: NewJob)
    requires Hashed(db) && AddsJob(db, db', id, request)
    ensures Hashed(db')
  {
    RedispatchKeepsHash(request);
  }

  lemma WriteKeepsHashed(db: Db, db': Db, id: JobId, after: Job, e: JobEvent)
    requires Hashed(db) && id in db.jobs && WritesJob(db, db', id, after, e) && SameIdentity(db.jobs[id], after)
    ensures Hashed(db')
  {
    assert SubmitRequest(after) == SubmitRequest(db.jobs[id]);
  }

  lemma SubmitIsSafe(s: Net, key: string, id: JobId, request: NewJob, link: Option<ChangeLink>)
    requires Safe(s)
    ensures Safe(s.(hub := AfterSubmit(s.hub, key, id, request, link)))
  {
    var r := SubmitLinkedJob(s.hub, key, id, request, link);
    if r.Ok? {
      SubmitEffect(s.hub, key, id, request, link);
      if r.value.created {
        AddedJobIsSafe(s, s.(hub := r.value.db), id, request);
      }
    }
  }

  /** A new job is queued, and nobody has sent it. */
  lemma AddedJobIsSafe(s: Net, s': Net, id: JobId, request: NewJob)
    requires Safe(s) && s' == s.(hub := s'.hub) && AddsJob(s.hub, s'.hub, id, request)
    ensures Safe(s')
  {
    AddExtends(s.hub, s'.hub, id, request);
    AddKeepsHashed(s.hub, s'.hub, id, request);
    HubJobsOf(s);
    OtherHubJobsStay(s, s', id);
    HubMoves(s, s');
  }

  /** A terminal outcome of a remote job is an early refusal or what the executor reports. */
  predicate Justified(s: Net, id: JobId, next: JobState, result: Option<Evidence>)
    requires id in s.hub.jobs
  {
    Remote(s.hub, id) && IsTerminal(next) ==>
      || (id !in s.authorized && s.hub.jobs[id].state == Queued && next == Cancelled && result == Some(NotStarted))
      || (var db := ExecutorDb(s, s.hub.jobs[id].host);
          id in db.jobs && (IsSettled(next) ==> db.jobs[id].state == next && db.jobs[id].result == result))
  }

  /** A job row transition whose terminal outcomes for remote jobs are justified. */
  lemma TransitionIsSafe(s: Net, id: JobId, expected: nat, next: JobState, result: Option<Evidence>)
    requires Safe(s) && id in s.hub.jobs && Justified(s, id, next, result)
    ensures Safe(s.(hub := AfterTransition(s.hub, id, expected, next, result)))
  {
    var hub' := AfterTransition(s.hub, id, expected, next, result);
    TransitionWrites(s.hub, id, expected, next, result);
    if hub' != s.hub {
      JobMoveIsSafe(s, s.(hub := hub'), id, Moved(s.hub.jobs[id], next, result), EventOf(s.hub.jobs[id], id, next));
    } else {
      assert s.(hub := hub') == s;
    }
  }

  lemma JobMoveIsSafe(s: Net, s': Net, id: JobId, after: Job, e: JobEvent)
    requires Safe(s) && s' == s.(hub := s'.hub) && id in s.hub.jobs && WritesJob(s.hub, s'.hub, id, after, e)
    requires JobAdvances(s.hub.jobs[id], after) && Justified(s, id, after.state, after.result)
    ensures Safe(s')
  {
    WriteExtends(s.hub, s'.hub, id, after, e);
    WriteKeepsHashed(s.hub, s'.hub, id, after, e);
    OutcomeIsBacked(s, id);
    OutcomeJustified(s, s', id);
    HubJobsOf(s);
    OtherHubJobsStay(s, s', id);
    HubMoves(s, s');
  }

  lemma OtherHubJobsStay(s: Net, s': Net, id: JobId)
    requires HubJobsSafe(s) && s' == s.(hub := s'.hub) && id in s'.hub.jobs && s'.hub.jobs == s.hub.jobs[id := s'.hub.jobs[id]]
    requires HubJobSafe(s', id)
    ensures HubJobsSafe(s')
  {
    forall i | i in s'.hub.jobs ensures HubJobSafe(s', i) {
      if i != id {
        HubJobStays(s, s', i);
      }
    }
  }

  /** The facts about one job that its next outcome depends on. */
  predicate Backing(s: Net, id: JobId)
    requires id in s.hub.jobs
  {
    var db := ExecutorDb(s, s.hub.jobs[id].host);
    (id in db.jobs ==> Sent(s, id)) && (Sent(s, id) ==> s.hub.jobs[id].state != Queued)
  }

  lemma OutcomeIsBacked(s: Net, id: JobId)
    requires Safe(s) && id in s.hub.jobs
    ensures Backing(s, id)
  {
    var host := s.hub.jobs[id].host;
    assert id in ExecutorDb(s, host).jobs ==> ExecutorBacked(s, host, id);
    assert Sent(s, id) ==> MessageBacked(s, SubmitMessage(id, SubmitRequest(s.hub.jobs[id])));
  }

  lemma OutcomeJustified(s: Net, s': Net, id: JobId)
    requires s' == s.(hub := s'.hub) && id in s.hub.jobs && id in s'.hub.jobs && Backing(s, id)
    requires SameIdentity(s.hub.jobs[id], s'.hub.jobs[id])
    requires Justified(s, id, s'.hub.jobs[id].state, s'.hub.jobs[id].result)
    ensures HubJobSafe(s', id)
  {
    assert SubmitRequest(s'.hub.jobs[id]) == SubmitRequest(s.hub.jobs[id]);
  }

  /** What a projection commits is justified by the snapshot it came from. */
  lemma SnapshotJustifies(s: Net, message: Message, next: JobState)
    requires message.SnapshotMessage? && MessageBacked(s, message) && message.id in s.hub.jobs
    requires SameJob(s.hub.jobs[message.id], message.job)
    requires ProjectionTarget(s.hub.jobs[message.id].state, message.job.state) == Some(next)
    ensures Justified(s, message.id, next, message.job.result)
  {
  }

  lemma ProjectionCommits(hub: Db, id: JobId, expected: nat, target: Job)
    requires id in hub.jobs
    ensures
      var hub' := ProjectOnce(hub, id, expected, target);
      var next := ProjectionTarget(hub.jobs[id].state, target.state);
      || hub' == hub
      || (SameJob(hub.jobs[id], target) && next.Some?
          && hub' == AfterTransition(hub, id, expected, next.value, target.result))
  {
  }

  lemma ProjectIsSafe(s: Net, message: Message, expected: nat)
    requires Safe(s) && message in s.wire && message.SnapshotMessage? && Remote(s.hub, message.id)
    ensures Safe(s.(hub := ProjectOnce(s.hub, message.id, expected, message.job)))
  {
    var id, target := message.id, message.job;
    var hub' := ProjectOnce(s.hub, id, expected, target);
    ProjectionCommits(s.hub, id, expected, target);
    if hub' != s.hub {
      var next := ProjectionTarget(s.hub.jobs[id].state, target.state).value;
      SnapshotJustifies(s, message, next);
      TransitionIsSafe(s, id, expected, next, target.result);
    } else {
      assert s.(hub := hub') == s;
    }
  }

  lemma CancelIsSafe(s: Net, id: JobId, expected: nat, reason: string)
    requires Safe(s)
    ensures Safe(s.(hub := AfterCancel(s.hub, id, expected, reason)))
  {
    var hub' := AfterCancel(s.hub, id, expected, reason);
    CancelWrites(s.hub, id, expected, reason);
    if hub' != s.hub {
      var job := s.hub.jobs[id];
      JobMoveIsSafe(s, s.(hub := hub'), id, CancelMarked(job), JobEvent(id, CancelRequested, job.state));
    } else {
      assert s.(hub := hub') == s;
    }
  }

  // ---------------------------------------------------------------- the wire, executors and tasks

  lemma SendIsSafe(s: Net, id: JobId)
    requires Safe(s) && id in s.tasks && id in s.authorized && id in s.hub.jobs && s.hub.jobs[id].state != Queued
    ensures Safe(s.(wire := s.wire + {SubmitMessage(id, SubmitRequest(s.hub.jobs[id]))}))
  {
    var m := SubmitMessage(id, SubmitRequest(s.hub.jobs[id]));
    var s' := s.(wire := s.wire + {m});
    assert HubJobSafe(s, id);
    forall i | Remote(s.hub, i) ensures HubJobSafe(s', i) {
      assert HubJobSafe(s, i);
      WireKeepsHubJob(s, s', m, i);
    }
    assert MessageBacked(s', m);
    WireGrows(s, s', m);
  }

  /** A Submit for a settled job can only follow an earlier one. */
  lemma WireKeepsHubJob(s: Net, s': Net, m: Message, i: JobId)
    requires Remote(s.hub, i) && HubJobSafe(s, i) && s' == s.(wire := s.wire + {m})
    requires m.SubmitMessage? && m.id == i ==> i in s.tasks && i in s.authorized
    ensures HubJobSafe(s', i)
  {
    assert Sent(s', i) ==> Sent(s, i) || m == SubmitMessage(i, SubmitRequest(s.hub.jobs[i]));
    if IsSettled(s.hub.jobs[i].state) && i in ExecutorDb(s, s.hub.jobs[i].host).jobs {
      JobAdvancesSelf(ExecutorDb(s, s.hub.jobs[i].host).jobs[i]);
    }
  }

  lemma WireGrows(s: Net, s': Net, m: Message)
    requires Safe(s) && s' == s.(wire := s.wire + {m}) && MessageBacked(s', m)
    requires forall i :: Remote(s.hub, i) ==> HubJobSafe(s', i)
    ensures Safe(s')
  {
    forall n | n in s'.wire ensures MessageBacked(s', n) {
      if n != m {
        assert MessageBacked(s, n);
        WireKeepsMessage(s, s', n);
      }
    }
    forall h, i | h in s'.executors && i in s'.executors[h].jobs ensures ExecutorBacked(s', h, i) {
      assert ExecutorBacked(s, h, i);
      WireKeepsExecutor(s, s', h, i);
    }
    forall i | Remote(s'.hub, i) ensures NoLateSend(s', i) && (IsSettled(s'.hub.jobs[i].state) ==> Agreed(s', i)) {
      assert HubJobSafe(s', i);
    }
  }

  lemma WireKeepsMessage(s: Net, s': Net, n: Message)
    requires MessageBacked(s, n) && s'.hub == s.hub && s'.executors == s.executors
    ensures MessageBacked(s', n)
  {
  }

  lemma WireKeepsExecutor(s: Net, s': Net, h: string, i: JobId)
    requires h in s.executors && i in s.executors[h].jobs && ExecutorBacked(s, h, i)
    requires s'.hub == s.hub && s'.executors == s.executors && s.wire <= s'.wire
    ensures ExecutorBacked(s', h, i)
  {
  }

  lemma ReplyIsSafe(s: Net, host: string, id: JobId)
    requires Safe(s) && host in s.executors && id in s.executors[host].jobs
    ensures Safe(s.(wire := s.wire + {SnapshotMessage(id, s.executors[host].jobs[id])}))
  {
    var m := SnapshotMessage(id, s.executors[host].jobs[id]);
    var s' := s.(wire := s.wire + {m});
    assert ExecutorBacked(s, host, id);
    JobAdvancesSelf(s.executors[host].jobs[id]);
    forall i | Remote(s.hub, i) ensures HubJobSafe(s', i) {
      assert HubJobSafe(s, i);
      WireKeepsHubJob(s, s', m, i);
    }
    WireGrows(s, s', m);
  }

  /** A row that an executor may hold: it answers a Submit for the Hub's row. */
  predicate Answers(s: Net, host: string, id: JobId, row: Job) {
    id in s.hub.jobs && s.hub.jobs[id].host == host && Sent(s, id) && SameIdentity(s.hub.jobs[id], row)
  }

  /** An executor transaction: its rows advance and every new row answers a Submit. */
  lemma ExecutorMoves(s: Net, host: string, db': Db)
    requires Safe(s) && host in s.executors && JobsExtend(s.executors[host].jobs, db'.jobs)
    requires forall id :: id in db'.jobs && id !in s.executors[host].jobs ==> Answers(s, host, id, db'.jobs[id])
    ensures Safe(s.(executors := s.executors[host := db']))
  {
    var s' := s.(executors := s.executors[host := db']);
    forall m | m in s'.wire ensures MessageBacked(s', m) {
      assert MessageBacked(s, m);
      ExecutorMoveKeepsMessage(s, s', host, m);
    }
    forall h, id | h in s'.executors && id in s'.executors[h].jobs ensures ExecutorBacked(s', h, id) {
      if h != host || id in s.executors[host].jobs {
        assert ExecutorBacked(s, h, id);
        ExecutorMoveKeepsRow(s, s', host, h, id);
      }
    }
    forall id | Remote(s'.hub, id) ensures NoLateSend(s', id) && (IsSettled(s'.hub.jobs[id].state) ==> Agreed(s', id)) {
      assert HubJobSafe(s, id);
      ExecutorMoveKeepsHubJob(s, s', host, id);
    }
  }

  lemma ExecutorMoveKeepsMessage(s: Net, s': Net, host: string, m: Message)
    requires MessageBacked(s, m) && host in s.executors && host in s'.executors
    requires s' == s.(executors := s.executors[host := s'.executors[host]])
    requires RowFollows(s.executors[host].jobs, s'.executors[host].jobs, m.id)
    ensures MessageBacked(s', m)
  {
  }

  lemma ExecutorMoveKeepsRow(s: Net, s': Net, host: string, h: string, id: JobId)
    requires h in s.executors && id in s.executors[h].jobs && ExecutorBacked(s, h, id)
    requires host in s.executors && host in s'.executors && s' == s.(executors := s.executors[host := s'.executors[host]])
    requires RowFollows(s.executors[host].jobs, s'.executors[host].jobs, id)
    ensures h in s'.executors && id in s'.executors[h].jobs && ExecutorBacked(s', h, id)
  {
  }

  lemma ExecutorMoveKeepsHubJob(s: Net, s': Net, host: string, id: JobId)
    requires Remote(s.hub, id) && HubJobSafe(s, id) && host in s.executors && host in s'.executors
    requires s' == s.(executors := s.executors[host := s'.executors[host]])
    requires RowFollows(s.executors[host].jobs, s'.executors[host].jobs, id)
    ensures HubJobSafe(s', id)
  {
    if IsSettled(s.hub.jobs[id].state) {
      var h := s.hub.jobs[id].host;
      if id in ExecutorDb(s, h).jobs {
        JobAdvancesSelf(ExecutorDb(s, h).jobs[id]);
      }
      AgreedStays(s, s', id);
    }
  }

  lemma AcceptIsSafe(s: Net, id: JobId, request: NewJob)
    requires Safe(s) && SubmitMessage(id, request) in s.wire && request.host in s.executors
    ensures Safe(s.(executors := s.executors[request.host := AfterAccept(s.executors[request.host], id, request)]))
  {
    var db := s.executors[request.host];
    var r := AcceptJob(db, id, request);
    assert MessageBacked(s, SubmitMessage(id, request));
    AcceptExtends(db, id, request);
    if r.Ok? {
      AcceptEffect(db, id, request);
      assert id !in db.jobs ==> Answers(s, request.host, id, FreshJob(request));
    }
    ExecutorMoves(s, request.host, AfterAccept(db, id, request));
  }

  lemma ExecutorStepIsSafe(s: Net, host: string, op: Op)
    requires Safe(s) && host in s.executors && (op.DoTransition? || op.DoCancel? || op.DoAcquire? || op.DoRelease?)
    ensures Safe(s.(executors := s.executors[host := Apply(s.executors[host], op)]))
  {
    var db := s.executors[host];
    ApplyExtends(db, op);
    NoNewJob(db, op);
    ExecutorMoves(s, host, Apply(db, op));
  }

  lemma NoNewJob(db: Db, op: Op)
    requires op.DoTransition? || op.DoCancel? || op.DoAcquire? || op.DoRelease?
    ensures Apply(db, op).jobs.Keys == db.jobs.Keys
  {
  }

  lemma TasksAreSafe(s: Net, tasks: set<JobId>, authorized: set<JobId>)
    requires Safe(s) && (forall id :: id in tasks ==> Remote(s.hub, id))
    requires forall id :: id in tasks && IsTerminal(s.hub.jobs[id].state) && !Sent(s, id) ==> id !in authorized
    ensures Safe(s.(tasks := tasks, authorized := authorized))
  {
    var s' := s.(tasks := tasks, authorized := authorized);
    forall m | m in s'.wire ensures MessageBacked(s', m) {
      assert MessageBacked(s, m);
      WireKeepsMessage(s, s', m);
    }
    forall h, i | h in s'.executors && i in s'.executors[h].jobs ensures ExecutorBacked(s', h, i) {
      assert ExecutorBacked(s, h, i);
      WireKeepsExecutor(s, s', h, i);
    }
    forall i | Remote(s'.hub, i) ensures NoLateSend(s', i) && (IsSettled(s'.hub.jobs[i].state) ==> Agreed(s', i)) {
      assert IsSettled(s.hub.jobs[i].state) ==> Agreed(s, i);
    }
  }

  lemma SpawnIsSafe(s: Net, id: JobId)
    requires Safe(s) && Remote(s.hub, id) && !IsTerminal(s.hub.jobs[id].state)
    ensures Safe(s.(tasks := s.tasks + {id}))
  {
    forall i | i in s.tasks + {id} && IsTerminal(s.hub.jobs[i].state) && !Sent(s, i) ensures i !in s.authorized {
      assert NoLateSend(s, i);
    }
    TasksAreSafe(s, s.tasks + {id}, s.authorized);
    assert s.(tasks := s.tasks + {id}) == s.(tasks := s.tasks + {id}, authorized := s.authorized);
  }

  // ---------------------------------------------------------------- every step

  /** Steps that move a Hub job to a fixed next state. */
  predicate MovesHubJob(step: Step) {
    step.HubRefuse? || step.HubDispatch? || step.HubLoseAcknowledgement? || step.HubLocal?
  }

  predicate CommitsToHub(step: Step) {
    step.ClientSubmit? || MovesHubJob(step) || step.HubProject? || step.HubCancel?
  }

  function MoveTarget(step: Step): (next: JobState)
    requires MovesHubJob(step)
  {
    match step
    case HubRefuse(_, _) => Cancelled
    case HubDispatch(_, _) => Dispatching
    case HubLoseAcknowledgement(_, _) => Reconciling
    case HubLocal(_, _, next, _) => next
  }

  function MoveResult(step: Step): (result: Option<Evidence>)
    requires MovesHubJob(step)
  {
    match step
    case HubRefuse(_, _) => Some(NotStarted)
    case HubLocal(_, _, _, result) => result
    case _ => None
  }

  lemma MoveIsJustified(s: Net, step: Step)
    requires MovesHubJob(step)
    ensures
      || Next(s, step) == s
      || (&& step.id in s.hub.jobs && Justified(s, step.id, MoveTarget(step), MoveResult(step))
          && Next(s, step) == s.(hub := AfterTransition(s.hub, step.id, step.expected, MoveTarget(step), MoveResult(step))))
  {
  }

  lemma HubMoveIsSafe(s: Net, step: Step)
    requires Safe(s) && MovesHubJob(step)
    ensures Safe(Next(s, step))
  {
    MoveIsJustified(s, step);
    if Next(s, step) != s {
      TransitionIsSafe(s, step.id, step.expected, MoveTarget(step), MoveResult(step));
    }
  }

  lemma HubCommitIsSafe(s: Net, step: Step)
    requires Safe(s) && CommitsToHub(step)
    ensures Safe(Next(s, step))
  {
    if MovesHubJob(step) {
      HubMoveIsSafe(s, step);
    } else if Next(s, step) != s {
      match step
      case ClientSubmit(key, id, request, link) => SubmitIsSafe(s, key, id, request, link);
      case HubProject(message, expected) => ProjectIsSafe(s, message, expected);
      case HubCancel(id, expected, reason) => CancelIsSafe(s, id, expected, reason);
    }
  }

  lemma NextIsSafe(s: Net, step: Step)
    requires Safe(s)
    ensures Safe(Next(s, step))
  {
    if CommitsToHub(step) {
      HubCommitIsSafe(s, step);
    } else if Next(s, step) != s {
      match step
      case HubSend(id) => SendIsSafe(s, id);
      case ExecutorAccept(message) => AcceptIsSafe(s, message.id, message.request);
      case ExecutorStep(host, op) => ExecutorStepIsSafe(s, host, op);
      case ExecutorReply(host, id) => ReplyIsSafe(s, host, id);
      case HubSpawn(id) => SpawnIsSafe(s, id);
      case HubRestart(authorized) => TasksAreSafe(s, {}, authorized);
    }
  }

  lemma {:induction false} RunIsSafe(s: Net, steps: seq<Step>)
    requires Safe(s)
    ensures Safe(RunSteps(s, steps))
    decreases |steps|
  {
    if steps != [] {
      NextIsSafe(s, steps[0]);
      RunIsSafe(Next(s, steps[0]), steps[1..]);
    }
  }

  // ---------------------------------------------------------------- agreement

  /**
   Whatever was resent, duplicated or reordered, an executor's row carries the
   principal, host, operation, specification and policy version of the Hub's row.
   */
  lemma ExecutorsHoldWhatWasAsked(s: Net, steps: seq<Step>, host: string, id: JobId)
    requires Initial(s)
    requires
      var end := RunSteps(s, steps);
      host in end.executors && id in end.executors[host].jobs
    ensures
      var end := RunSteps(s, steps);
      && id in end.hub.jobs
      && var asked, row := end.hub.jobs[id], end.executors[host].jobs[id];
         && row.principal == asked.principal && row.host == asked.host == host && row.operation == asked.operation
         && row.specVersion == asked.specVersion && row.spec == asked.spec && row.hash == asked.hash
         && row.policyVersion == asked.policyVersion
  {
    RunIsSafe(s, steps);
    assert ExecutorBacked(RunSteps(s, steps), host, id);
  }

  /**
   With messages lost, duplicated, delayed or reordered and either side
   restarting at any point, a settled Hub record of a remote job was cancelled
   as not started before any Submit was sent, and then no executor knows of the job, or
   it carries the state and the result the executor settled it with.
   */
  lemma Agreement(s: Net, steps: seq<Step>, id: JobId)
    requires Initial(s)
    requires Remote(RunSteps(s, steps).hub, id) && IsSettled(RunSteps(s, steps).hub.jobs[id].state)
    ensures
      var end := RunSteps(s, steps);
      var job := end.hub.jobs[id];
      || (job.state == Cancelled && job.result == Some(NotStarted) && !Sent(end, id)
          && forall h :: h in end.executors ==> id !in end.executors[h].jobs)
      || (var db := ExecutorDb(end, job.host);
          id in db.jobs && db.jobs[id].state == job.state && db.jobs[id].result == job.result)
  {
    RunIsSafe(s, steps);
    var end := RunSteps(s, steps);
    assert Agreed(end, id);
    if !Sent(end, id) {
      forall h | h in end.executors ensures id !in end.executors[h].jobs {
        assert id in end.executors[h].jobs ==> ExecutorBacked(end, h, id);
      }
    }
  }

  /** A Submit that carries what the Hub's row says, in every field. */
  predicate AsksFor(m: Message, id: JobId, job: Job) {
    && m.SubmitMessage? && m.id == id
    && m.request.principal == job.principal && m.request.host == job.host && m.request.operation == job.operation
    && m.request.specVersion == job.specVersion && m.request.spec == job.spec
    && m.request.policyVersion == job.policyVersion
  }

  predicate Ready(s: Net, id: JobId) {
    id in s.tasks && id in s.authorized && id in s.hub.jobs && s.hub.jobs[id].host in s.executors
  }

  /** A new valid submission to a known host becomes a queued job whose dispatch task runs. */
  lemma SubmissionIsSpawned(s: Net, key: string, id: JobId, request: NewJob)
    requires ValidNewJob(key, request) && SubmissionKey(request.principal, key) !in s.hub.receipts && id !in s.hub.jobs
    requires id in s.authorized && request.host in s.executors && !IsLocal(request.operation)
    ensures
      var end := Next(Next(s, ClientSubmit(key, id, request, None)), HubSpawn(id));
      && Ready(end, id) && end.hub.jobs[id].state == Queued && !end.hub.jobs[id].cancelRequested
      && SubmitRequest(end.hub.jobs[id]) == request.(spec := CanonicalSpec(request.spec))
  {
    RedispatchKeepsHash(request);
  }

  /** A cancel is marked by the target's own transaction on the executor's row, and then on the Hub's. */
  lemma CancelIsMarked(s: Net, host: string, id: JobId, reason: string)
    requires id in s.hub.jobs && host in s.executors && id in s.executors[host].jobs && Bounded(reason, 1024)
    requires !IsTerminal(s.hub.jobs[id].state) && !IsTerminal(s.executors[host].jobs[id].state)
    ensures
      var asked := Next(s, ExecutorStep(host, DoCancel(id, s.executors[host].jobs[id].revision, reason)));
      var end := Next(asked, HubCancel(id, s.hub.jobs[id].revision, reason));
      && end.executors[host].jobs[id] == CancelMarked(s.executors[host].jobs[id])
      && end.hub.jobs[id] == CancelMarked(s.hub.jobs[id])
      && end.wire == s.wire && end.executors == s.executors[host := end.executors[host]]
  {
  }

  lemma DispatchCommits(s: Net, id: JobId)
    requires Ready(s, id) && s.hub.jobs[id].state == Queued
    ensures
      var job := s.hub.jobs[id];
      var s' := Next(s, HubDispatch(id, job.revision));
      && Ready(s', id) && s' == s.(hub := s'.hub)
      && s'.hub.jobs[id] == job.(state := Dispatching, revision := job.revision + 1, result := None)
  {
  }

  lemma AcknowledgementLost(s: Net, id: JobId)
    requires Ready(s, id) && s.hub.jobs[id].state == Dispatching
    ensures
      var job := s.hub.jobs[id];
      var s' := Next(s, HubLoseAcknowledgement(id, job.revision));
      && Ready(s', id) && s' == s.(hub := s'.hub)
      && s'.hub.jobs[id] == job.(state := Reconciling, revision := job.revision + 1, result := None)
  {
  }

  /** A Submit on its way, and the executor taking it in. */
  function SendAndAccept(s: Net, id: JobId, m: Message): (r: Net) { Next(Next(s, HubSend(id)), ExecutorAccept(m)) }

  lemma SubmitArrives(s: Net, id: JobId, m: Message)
    requires Ready(s, id) && s.hub.jobs[id].state != Queued
    requires AsksFor(m, id, s.hub.jobs[id]) && ValidNewJob("upstream-job-id", m.request)
    requires CanonicalSpec(s.hub.jobs[id].spec) == s.hub.jobs[id].spec
    ensures
      var host := s.hub.jobs[id].host;
      var s' := SendAndAccept(s, id, m);
      && s' == s.(wire := s.wire + {m}, executors := s'.executors) && host in s'.executors
      && s'.executors[host] == AfterAccept(s.executors[host], id, m.request)
      && s'.executors == s.executors[host := s'.executors[host]]
      && m.request == SubmitRequest(s.hub.jobs[id])
  {
  }

  lemma AcceptedOnce(db: Db, id: JobId, request: NewJob)
    requires id !in db.jobs && ValidNewJob("upstream-job-id", request)
    ensures
      var db' := AfterAccept(db, id, request);
      id in db'.jobs && db'.jobs[id] == FreshJob(request) && AfterAccept(db', id, request) == db'
  {
  }

  /** The job is dispatched, taken in, and after a lost acknowledgement sent again without effect. */
  predicate Arrives(mid: Net, id: JobId, m: Message)
    requires id in mid.hub.jobs
  {
    var job := mid.hub.jobs[id];
    var end := SendAndAccept(Next(mid, HubDispatch(id, job.revision)), id, m);
    var lost := Next(end, HubLoseAcknowledgement(id, job.revision + 1));
    && id in end.hub.jobs && end.hub.jobs[id] == job.(state := Dispatching, revision := job.revision + 1, result := None)
    && job.host in end.executors && id in end.executors[job.host].jobs
    && SameIdentity(job, end.executors[job.host].jobs[id]) && end.executors[job.host].jobs[id].state == Queued
    && id in lost.hub.jobs && lost.hub.jobs[id] == job.(state := Reconciling, revision := job.revision + 2, result := None)
    && SendAndAccept(lost, id, m).executors == end.executors
  }

  /**
   From any reachable state an authorized queued job is dispatched, sent and taken
   in by its executor; and when the acknowledgement of that is lost, the Hub
   reconciles and its second Submit changes nothing on the executor.
   */
  lemma DispatchArrives(s: Net, steps: seq<Step>, id: JobId, m: Message)
    requires Initial(s)
    requires
      var mid := RunSteps(s, steps);
      && Ready(mid, id) && mid.hub.jobs[id].state == Queued
      && AsksFor(m, id, mid.hub.jobs[id]) && ValidNewJob("upstream-job-id", m.request)
    ensures Arrives(RunSteps(s, steps), id, m)
  {
    RunIsSafe(s, steps);
    QueuedIsUnknown(RunSteps(s, steps), id);
    DispatchArrivesAt(RunSteps(s, steps), id, m);
  }

  /** A queued job was never sent, and its row is canonical under its hash. */
  lemma QueuedIsUnknown(mid: Net, id: JobId)
    requires Safe(mid) && id in mid.hub.jobs && mid.hub.jobs[id].state == Queued
    ensures id !in ExecutorDb(mid, mid.hub.jobs[id].host).jobs
    ensures CanonicalSpec(mid.hub.jobs[id].spec) == mid.hub.jobs[id].spec
    ensures mid.hub.jobs[id].hash == HashOf(SubmitRequest(mid.hub.jobs[id]))
  {
    OutcomeIsBacked(mid, id);
  }

  lemma DispatchArrivesAt(mid: Net, id: JobId, m: Message)
    requires Ready(mid, id) && mid.hub.jobs[id].state == Queued && CanonicalSpec(mid.hub.jobs[id].spec) == mid.hub.jobs[id].spec
    requires mid.hub.jobs[id].hash == HashOf(SubmitRequest(mid.hub.jobs[id]))
    requires AsksFor(m, id, mid.hub.jobs[id]) && ValidNewJob("upstream-job-id", m.request)
    requires id !in ExecutorDb(mid, mid.hub.jobs[id].host).jobs
    ensures Arrives(mid, id, m)
  {
    var job := mid.hub.jobs[id];
    var sending := Next(mid, HubDispatch(id, job.revision));
    DispatchCommits(mid, id);
    SubmitArrives(sending, id, m);
    AcceptedOnce(mid.executors[job.host], id, m.request);
    var end := SendAndAccept(sending, id, m);
    AcknowledgementLost(end, id);
    SubmitArrives(Next(end, HubLoseAcknowledgement(id, job.revision + 1)), id, m);
  }

  /** An unauthorized queued job is cancelled as not started. */
  lemma RefusalCommits(s: Net, id: JobId)
    requires Safe(s) && id in s.tasks && id !in s.authorized && s.hub.jobs[id].state == Queued
    ensures
      var job := s.hub.jobs[id];
      var end := Next(s, HubRefuse(id, job.revision));
      && end.hub.jobs[id] == job.(state := Cancelled, revision := job.revision + 1, result := Some(NotStarted))
      && !Sent(end, id)
  {
    OutcomeIsBacked(s, id);
  }

  /** A job cancelled before its first Submit is never sent, whatever is permitted or restarted afterwards. */
  lemma {:induction false} NeverSentAfterwards(s: Net, steps: seq<Step>, id: JobId)
    requires Safe(s) && Remote(s.hub, id) && IsSettled(s.hub.jobs[id].state) && !Sent(s, id)
    ensures id in RunSteps(s, steps).hub.jobs && RunSteps(s, steps).hub.jobs[id] == s.hub.jobs[id]
    ensures !Sent(RunSteps(s, steps), id)
    decreases |steps|
  {
    if steps != [] {
      assert NoLateSend(s, id);
      NextIsSafe(s, steps[0]);
      SettledHubJobStays(s, steps[0], id);
      NeverSentAfterwards(Next(s, steps[0]), steps[1..], id);
    }
  }

  lemma SettledHubJobStays(s: Net, step: Step, id: JobId)
    requires Safe(s) && Remote(s.hub, id) && IsSettled(s.hub.jobs[id].state)
    ensures id in Next(s, step).hub.jobs && Next(s, step).hub.jobs[id] == s.hub.jobs[id]
    ensures !Sent(s, id) ==> !Sent(Next(s, step), id)
  {
    assert NoLateSend(s, id);
    if CommitsToHub(step) {
      HubRowsAdvance(s, step);
      assert JobAdvances(s.hub.jobs[id], Next(s, step).hub.jobs[id]);
    }
  }

  lemma HubRowsAdvance(s: Net, step: Step)
    requires CommitsToHub(step)
    ensures JobsExtend(s.hub.jobs, Next(s, step).hub.jobs) && Next(s, step) == s.(hub := Next(s, step).hub)
  {
    ExtendsSelf(s.hub);
    if MovesHubJob(step) {
      MoveIsJustified(s, step);
      ApplyExtends(s.hub, DoTransition(step.id, step.expected, MoveTarget(step), MoveResult(step)));
    } else if Next(s, step) != s {
      match step
      case ClientSubmit(key, id, request, link) => ApplyExtends(s.hub, DoSubmit(key, id, request, link));
      case HubCancel(id, expected, reason) => ApplyExtends(s.hub, DoCancel(id, expected, reason));
      case HubProject(message, expected) => ProjectionAdvances(s.hub, message.id, expected, message.job);
    }
  }

  lemma ProjectionAdvances(hub: Db, id: JobId, expected: nat, target: Job)
    ensures JobsExtend(hub.jobs, ProjectOnce(hub, id, expected, target).jobs)
  {
    ExtendsSelf(hub);
    if id in hub.jobs {
      ProjectionCommits(hub, id, expected, target);
      var next := ProjectionTarget(hub.jobs[id].state, target.state);
      if next.Some? {
        ApplyExtends(hub, DoTransition(id, expected, next.value, target.result));
      }
    }
  }

  /** An unauthorized queued job is cancelled as not started, and no Submit for it is sent in any later process. */
  lemma RefusalIsFinal(s: Net, before: seq<Step>, id: JobId, after: seq<Step>)
    requires Initial(s)
    requires
      var mid := RunSteps(s, before);
      id in mid.tasks && id !in mid.authorized && id in mid.hub.jobs && mid.hub.jobs[id].state == Queued
    ensures
      var mid := RunSteps(s, before);
      var job := mid.hub.jobs[id];
      var end := RunSteps(Next(mid, HubRefuse(id, job.revision)), after);
      && id in end.hub.jobs && !Sent(end, id)
      && end.hub.jobs[id] == job.(state := Cancelled, revision := job.revision + 1, result := Some(NotStarted))
      && (forall h :: h in end.executors ==> id !in end.executors[h].jobs)
  {
    RunIsSafe(s, before);
    var mid := RunSteps(s, before);
    RefusalCommits(mid, id);
    var refused := Next(mid, HubRefuse(id, mid.hub.jobs[id].revision));
    NextIsSafe(mid, HubRefuse(id, mid.hub.jobs[id].revision));
    NeverSentAfterwards(refused, after, id);
    RunIsSafe(refused, after);
    var end := RunSteps(refused, after);
    forall h | h in end.executors ensures id !in end.executors[h].jobs {
      assert id in end.executors[h].jobs ==> ExecutorBacked(end, h, id);
    }
  }

  /** Any settled snapshot settles a dispatched, unsettled Hub record to exactly its state. */
  lemma SettledSnapshotSettles(hub: Db, id: JobId, target: Job)
    requires id in hub.jobs && SameJob(hub.jobs[id], target) && IsSettled(target.state)
    ensures
      var job := hub.jobs[id];
      var job' := ProjectOnce(hub, id, job.revision, target).jobs[id];
      if job.state == Queued && target.state == Succeeded then job' == job
      else if IsSettled(job.state) then job' == job
      else job'.state == target.state && job'.result == target.result
  {
    var job := hub.jobs[id];
    var next := ProjectionTarget(job.state, target.state);
    if next.Some? && TransitionJob(hub, id, job.revision, next.value, target.result).Ok? {
      TransitionEffect(hub, id, job.revision, next.value, target.result);
    }
  }

  /**
   Whatever was lost before, one Status exchange from any reachable state makes
   the Hub agree with a settled executor.
   */
  lemma OneExchangeConverges(s: Net, steps: seq<Step>, host: string, id: JobId)
    requires Initial(s)
    requires
      var mid := RunSteps(s, steps);
      host in mid.executors && id in mid.executors[host].jobs && IsSettled(mid.executors[host].jobs[id].state)
      && Remote(mid.hub, id)
    ensures
      var mid := RunSteps(s, steps);
      var target := mid.executors[host].jobs[id];
      var replied := Next(mid, ExecutorReply(host, id));
      var end := Next(replied, HubProject(SnapshotMessage(id, target), mid.hub.jobs[id].revision));
      end.hub.jobs[id].state == target.state && end.hub.jobs[id].result == target.result
  {
    RunIsSafe(s, steps);
    ExchangeSettles(RunSteps(s, steps), host, id);
  }

  lemma ExchangeSettles(mid: Net, host: string, id: JobId)
    requires Safe(mid) && Remote(mid.hub, id)
    requires host in mid.executors && id in mid.executors[host].jobs && IsSettled(mid.executors[host].jobs[id].state)
    ensures
      var target := mid.executors[host].jobs[id];
      var replied := Next(mid, ExecutorReply(host, id));
      var end := Next(replied, HubProject(SnapshotMessage(id, target), mid.hub.jobs[id].revision));
      id in end.hub.jobs && end.hub.jobs[id].state == target.state && end.hub.jobs[id].result == target.result
  {
    ExchangeProjects(mid, host, id);
    assert ExecutorBacked(mid, host, id);
    OutcomeIsBacked(mid, id);
    if IsSettled(mid.hub.jobs[id].state) {
      assert Agreed(mid, id);
    }
    SettledSnapshotSettles(mid.hub, id, mid.executors[host].jobs[id]);
  }

  lemma ExchangeProjects(mid: Net, host: string, id: JobId)
    requires Remote(mid.hub, id) && host in mid.executors && id in mid.executors[host].jobs
    ensures
      var target := mid.executors[host].jobs[id];
      var replied := Next(mid, ExecutorReply(host, id));
      Next(replied, HubProject(SnapshotMessage(id, target), mid.hub.jobs[id].revision)).hub ==
        ProjectOnce(mid.hub, id, mid.hub.jobs[id].revision, target)
  {
  }
}
