/**
 The event tables of the Hub's store and the transactions over them: alert
 episodes, the retained event feed, subscription cursors with their delivery
 intents, and remediation claims.  Events are named by their sequence number;
 `now` is the clock in whole seconds.
 */
module EventModel {
  import opened Wrappers
  import opened Jobs
  import opened StoreModel
  import opened Utf8

  datatype AlertKey = AlertKey(source: string, fingerprint: string, host: string)

  datatype EventKind = AlertFiring | AlertResolved | DiagnosticCollected | RemediationStarted | RemediationFinished

  datatype FleetEvent = FleetEvent(sequence: nat, key: AlertKey, episode: nat, kind: EventKind, job: Option<JobId>)

  datatype EpisodeRow = EpisodeRow(episode: nat, active: bool)

  datatype DeliveryStage = StageQueued | StageAccepted | StageConfirmed

  datatype DeliveryKey = DeliveryKey(subscription: string, sequence: nat)

  datatype DeliveryRow = DeliveryRow(stage: DeliveryStage, attempts: nat, retryAt: Option<int>)

  datatype RemediationState = RemediationActive | RemediationSucceeded | RemediationFailed | NoAction | RemediationSuperseded

  datatype Remediation = Remediation(
    event: nat,
    episode: nat,
    host: string,
    principal: string,
    attempt: nat,
    revision: nat,
    state: RemediationState,
    startedAt: int,
    job: Option<JobId>)

  /** The rows of `events` are the sequences after `pruned`, without gaps. */
  datatype Feed = Feed(
    pruned: nat,
    events: seq<FleetEvent>,
    episodes: map<AlertKey, EpisodeRow>,
    nextEpisode: nat,
    cursors: map<string, nat>,
    deliveries: map<DeliveryKey, DeliveryRow>,
    remediations: seq<Remediation>)

  const NO_EVENTS: Feed := Feed(0, [], map[], 0, map[], map[], [])

  datatype FeedError =
    | InvalidEvent | EventNotFound | InvalidSubscription | MissingReference | NotFinal | IntentNotFound
    | InvalidPolicy | ActiveForEpisode | ActiveForHost | BudgetExhausted | CooldownActive
    | RemediationNotFound | RemediationChanged | RemediationTerminal | InvalidOutcome

  function Last(feed: Feed): (n: nat) { feed.pruned + |feed.events| }

  predicate Retained(feed: Feed, sequence: nat) { feed.pruned < sequence <= Last(feed) }

  function EventAt(feed: Feed, sequence: nat): (e: FleetEvent)
    requires Retained(feed, sequence)
  {
    feed.events[sequence - feed.pruned - 1]
  }

  // ---------------------------------------------------------------- events and episodes

  predicate ValidKey(key: AlertKey) {
    Bounded(key.source, 128) && Bounded(key.fingerprint, 512) && ValidHost(key.host)
  }

  function Insert(feed: Feed, key: AlertKey, episode: nat, kind: EventKind, job: Option<JobId>): (r: Feed) {
    feed.(events := feed.events + [FleetEvent(Last(feed) + 1, key, episode, kind, job)])
  }

  function IngestAlert(feed: Feed, key: AlertKey, firing: bool): (r: Result<Feed, FeedError>) {
    if !ValidKey(key) then Err(InvalidEvent)
    else
      var known := key in feed.episodes && (!firing || feed.episodes[key].active);
      var episode := if known then feed.episodes[key].episode else feed.nextEpisode;
      var kind := if firing then AlertFiring else AlertResolved;
      var touched := feed.(episodes := feed.episodes[key := EpisodeRow(episode, firing)],
                          nextEpisode := if known then feed.nextEpisode else feed.nextEpisode + 1);
      Ok(Insert(touched, key, episode, kind, None))
  }

  /** A diagnostic joins the episode of its event, or a fresh one. */
  function AppendDiagnostic(feed: Feed, key: AlertKey, about: Option<nat>, job: JobId): (r: Result<Feed, FeedError>) {
    if !ValidKey(key) then Err(InvalidEvent)
    else if about.None? then
      Ok(Insert(feed.(nextEpisode := feed.nextEpisode + 1), key, feed.nextEpisode, DiagnosticCollected, Some(job)))
    else if !Retained(feed, about.value) then Err(EventNotFound)
    else Ok(Insert(feed, key, EventAt(feed, about.value).episode, DiagnosticCollected, Some(job)))
  }

  predicate Referred(rs: seq<Remediation>, after: nat, upTo: nat) {
    exists i :: 0 <= i < |rs| && after < rs[i].event <= upTo
  }

  /** The last sequence a prune removes. */
  function PruneLimit(pruned: nat, last: nat, sequence: nat): (upTo: nat)
    requires pruned <= last
    ensures pruned <= upTo <= last
  {
    if sequence <= pruned then pruned else if sequence < last then sequence else last
  }

  /** Deleting an event deletes its deliveries and is refused while a remediation refers to it. */
  function Prune(feed: Feed, sequence: nat): (r: Result<Feed, FeedError>) {
    var upTo := PruneLimit(feed.pruned, Last(feed), sequence);
    if Referred(feed.remediations, feed.pruned, upTo) then Err(MissingReference)
    else Ok(feed.(pruned := upTo,
                  events := feed.events[upTo - feed.pruned..],
                  deliveries := DeliveriesAfter(feed.deliveries, upTo)))
  }

  function DeliveriesAfter(rows: map<DeliveryKey, DeliveryRow>, sequence: nat): (r: map<DeliveryKey, DeliveryRow>) {
    map k | k in rows && k.sequence > sequence :: rows[k]
  }

  // ---------------------------------------------------------------- delivery

  function EnsureSubscription(feed: Feed, id: string): (r: Result<Feed, FeedError>) {
    if !Bounded(id, 128) then Err(InvalidSubscription)
    else Ok(feed.(cursors := feed.cursors[id := if id in feed.cursors then feed.cursors[id] else 0]))
  }

  function NextEvent(feed: Feed, after: nat): (e: Option<FleetEvent>) {
    var from := if after < feed.pruned then feed.pruned else after;
    if from < Last(feed) then Some(EventAt(feed, from + 1)) else None
  }

  datatype Grant = Denied | Granted(feed: Feed, attempts: nat)

  function BeginDelivery(feed: Feed, id: string, sequence: nat, retryAfter: nat, now: int): (r: Result<Grant, FeedError>) {
    var k := DeliveryKey(id, sequence);
    var attempts := if k in feed.deliveries then feed.deliveries[k].attempts + 1 else 1;
    if k in feed.deliveries && feed.deliveries[k].stage != StageQueued then Ok(Denied)
    else if k in feed.deliveries && feed.deliveries[k].retryAt.Some? && feed.deliveries[k].retryAt.value > now then Ok(Denied)
    else if id !in feed.cursors || !Retained(feed, sequence) then Err(MissingReference)
    else
      var row := DeliveryRow(StageQueued, attempts, Some(now + retryAfter));
      Ok(Granted(feed.(deliveries := feed.deliveries[k := row]), attempts))
  }

  function Advance(feed: Feed, id: string, sequence: nat): (r: Feed) {
    if id in feed.cursors && feed.cursors[id] < sequence then feed.(cursors := feed.cursors[id := sequence]) else feed
  }

  function Acknowledge(feed: Feed, id: string, sequence: nat, stage: DeliveryStage): (r: Result<Feed, FeedError>) {
    var k := DeliveryKey(id, sequence);
    if stage == StageQueued then Err(NotFinal)
    else if k !in feed.deliveries then Err(IntentNotFound)
    else
      var row := feed.deliveries[k].(stage := stage, retryAt := None);
      Ok(Advance(feed.(deliveries := feed.deliveries[k := row]), id, sequence))
  }

  // ---------------------------------------------------------------- remediation

  predicate IsActiveRemediation(r: Remediation) { r.state == RemediationActive }

  /** The first claim made by this job for this principal. */
  function FindClaim(rs: seq<Remediation>, job: JobId, principal: string): (id: Option<nat>)
    ensures id.Some? ==> id.value < |rs| && rs[id.value].job == Some(job) && rs[id.value].principal == principal
    ensures id.None? ==> forall i :: 0 <= i < |rs| ==> rs[i].job != Some(job) || rs[i].principal != principal
  {
    if rs == [] then None
    else if rs[0].job == Some(job) && rs[0].principal == principal then Some(0)
    else
      var rest := FindClaim(rs[1..], job, principal);
      if rest.Some? then Some(rest.value + 1) else None
  }

  function Count(rs: seq<Remediation>, episode: nat): (n: nat) {
    if rs == [] then 0
    else Count(rs[..|rs| - 1], episode) + (if rs[|rs| - 1].episode == episode then 1 else 0)
  }

  function LatestStart(rs: seq<Remediation>, episode: nat): (at: Option<int>)
    ensures at.None? ==> forall i :: 0 <= i < |rs| ==> rs[i].episode != episode
    ensures at.Some? ==> forall i :: 0 <= i < |rs| && rs[i].episode == episode ==> rs[i].startedAt <= at.value
  {
    if rs == [] then None
    else
      var before := LatestStart(rs[..|rs| - 1], episode);
      var r := rs[|rs| - 1];
      if r.episode != episode then before
      else if before.None? || before.value < r.startedAt then Some(r.startedAt)
      else before
  }

  datatype Claim = Claim(feed: Feed, id: nat, created: bool)

  /** Why the policy refuses a claim for an event, in the order of its checks. */
  function ClaimRefused(rs: seq<Remediation>, episode: nat, host: string, maxAttempts: nat, cooldown: nat, now: int)
    : (e: Option<FeedError>)
  {
    var last := LatestStart(rs, episode);
    if exists i :: 0 <= i < |rs| && rs[i].episode == episode && IsActiveRemediation(rs[i]) then Some(ActiveForEpisode)
    else if exists i :: 0 <= i < |rs| && rs[i].host == host && IsActiveRemediation(rs[i]) then Some(ActiveForHost)
    else if Count(rs, episode) >= maxAttempts then Some(BudgetExhausted)
    else if last.Some? && now - last.value < cooldown then Some(CooldownActive)
    else None
  }

  function BeginRemediation(feed: Feed, event: nat, host: string, principal: string, job: JobId,
                            maxAttempts: nat, cooldown: nat, now: int): (r: Result<Claim, FeedError>)
  {
    var rs := feed.remediations;
    var existing := FindClaim(rs, job, principal);
    if maxAttempts == 0 then Err(InvalidPolicy)
    else if existing.Some? then Ok(Claim(feed, existing.value, false))
    else if !Retained(feed, event) || EventAt(feed, event).key.host != host then Err(EventNotFound)
    else
      var e := EventAt(feed, event);
      var refused := ClaimRefused(rs, e.episode, host, maxAttempts, cooldown, now);
      if refused.Some? then Err(refused.value)
      else
        var claim := NewClaim(event, e.episode, host, principal, Count(rs, e.episode) + 1, now, job);
        var key := LifecycleKey(e.key.fingerprint, host);
        Ok(Claim(Insert(feed.(remediations := rs + [claim]), key, e.episode, RemediationStarted, Some(job)), |rs|, true))
  }

  /** The identity of the events that open and close a claim. */
  function LifecycleKey(fingerprint: string, host: string): (k: AlertKey) {
    AlertKey("maxops.remediation", fingerprint, host)
  }

  function Closed(claim: Remediation, outcome: RemediationState, job: Option<JobId>): (r: Remediation) {
    claim.(state := outcome, revision := claim.revision + 1, job := job)
  }

  function NewClaim(event: nat, episode: nat, host: string, principal: string, attempt: nat, now: int, job: JobId)
    : (r: Remediation)
  {
    Remediation(event, episode, host, principal, attempt, 1, RemediationActive, now, Some(job))
  }

  function FinishRemediation(feed: Feed, id: nat, principal: string, expected: nat, outcome: RemediationState,
                             summary: string, job: Option<JobId>): (r: Result<Feed, FeedError>)
  {
    if outcome == RemediationActive || !Bounded(summary, 1024) then Err(InvalidOutcome)
    else if id >= |feed.remediations| || feed.remediations[id].principal != principal then Err(RemediationNotFound)
    else
      var claim := feed.remediations[id];
      if claim.revision != expected then Err(RemediationChanged)
      else if !IsActiveRemediation(claim) then Err(RemediationTerminal)
      else if !Retained(feed, claim.event) then Err(EventNotFound)
      else
        var done := Closed(claim, outcome, job);
        var key := LifecycleKey(EventAt(feed, claim.event).key.fingerprint, claim.host);
        Ok(Insert(feed.(remediations := feed.remediations[id := done]), key, claim.episode, RemediationFinished, job))
  }

  // ---------------------------------------------------------------- any transaction

  datatype FeedOp =
    | DoIngest(key: AlertKey, firing: bool)
    | DoDiagnose(key: AlertKey, about: Option<nat>, job: JobId)
    | DoPrune(sequence: nat)
    | DoEnsure(id: string)
    | DoBeginDelivery(id: string, sequence: nat, retryAfter: nat, now: int)
    | DoAcknowledge(id: string, sequence: nat, stage: DeliveryStage)
    | DoSkip(id: string, sequence: nat)
    | DoBegin(event: nat, host: string, principal: string, job: JobId, maxAttempts: nat, cooldown: nat, now: int)
    | DoFinish(claim: nat, principal: string, expected: nat, outcome: RemediationState, summary: string, related: Option<JobId>)

  function Settle(feed: Feed, r: Result<Feed, FeedError>): (f: Feed) { if r.Ok? then r.value else feed }

  /** The tables after one transaction; a refused one changes nothing. */
  function ApplyFeed(feed: Feed, op: FeedOp): (r: Feed) {
    match op
    case DoIngest(key, firing) => Settle(feed, IngestAlert(feed, key, firing))
    case DoDiagnose(key, about, job) => Settle(feed, AppendDiagnostic(feed, key, about, job))
    case DoPrune(sequence) => Settle(feed, Prune(feed, sequence))
    case DoEnsure(id) => Settle(feed, EnsureSubscription(feed, id))
    case DoBeginDelivery(id, sequence, retryAfter, now) =>
      var g := BeginDelivery(feed, id, sequence, retryAfter, now);
      if g.Ok? && g.value.Granted? then g.value.feed else feed
    case DoAcknowledge(id, sequence, stage) => Settle(feed, Acknowledge(feed, id, sequence, stage))
    case DoSkip(id, sequence) => Advance(feed, id, sequence)
    case DoBegin(event, host, principal, job, maxAttempts, cooldown, now) =>
      var c := BeginRemediation(feed, event, host, principal, job, maxAttempts, cooldown, now);
      if c.Ok? then c.value.feed else feed
    case DoFinish(claim, principal, expected, outcome, summary, related) =>
      Settle(feed, FinishRemediation(feed, claim, principal, expected, outcome, summary, related))
  }

  function RunFeed(feed: Feed, ops: seq<FeedOp>): (r: Feed)
    decreases |ops|
  {
    if ops == [] then feed else RunFeed(ApplyFeed(feed, ops[0]), ops[1..])
  }
}
