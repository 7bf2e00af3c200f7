/**
 When each transaction of the event tables commits, which refusal it gives
 otherwise, and the rows a commit leaves, stated on the tables.
 */
module FeedAnswers {
  import opened Wrappers
  import opened Jobs
  import opened EventModel
  import opened Remediations
  import opened Delivery
  import opened Utf8

  // ---------------------------------------------------------------- events and episodes

  /** One event was appended under the next sequence; what it carries is as given. */
  ghost predicate EventAdded(feed: Feed, feed': Feed, key: AlertKey, episode: nat, kind: EventKind, job: Option<JobId>) {
    && feed'.pruned == feed.pruned && Last(feed') == Last(feed) + 1
    && (forall q: nat :: Retained(feed, q) ==> EventAt(feed', q) == EventAt(feed, q))
    && EventAt(feed', Last(feed')) == FleetEvent(Last(feed'), key, episode, kind, job)
    && feed'.cursors == feed.cursors && feed'.deliveries == feed.deliveries
  }

  /** An alert of a valid key stays in its episode unless it fires anew, and its row follows it. */
  lemma IngestExactly(feed: Feed, key: AlertKey, firing: bool)
    ensures
      var r := IngestAlert(feed, key, firing);
      var opens := key !in feed.episodes || (firing && !feed.episodes[key].active);
      && (r == Err(InvalidEvent) <==> !ValidKey(key)) && (r.Ok? <==> ValidKey(key))
      && (r.Ok? ==>
            && key in r.value.episodes && r.value.remediations == feed.remediations
            && r.value.episodes == feed.episodes[key := r.value.episodes[key]]
            && (var row := r.value.episodes[key];
                && row.active == firing
                && row.episode == (if opens then feed.nextEpisode else feed.episodes[key].episode)
                && r.value.nextEpisode == (if opens then feed.nextEpisode + 1 else feed.nextEpisode)
                && EventAdded(feed, r.value, key, row.episode, if firing then AlertFiring else AlertResolved, None)))
  {
  }

  /** A diagnostic joins exactly the episode of the retained event it is about, or one of its own. */
  lemma DiagnoseExactly(feed: Feed, key: AlertKey, about: Option<nat>, job: JobId)
    ensures
      var r := AppendDiagnostic(feed, key, about, job);
      && (r == Err(InvalidEvent) <==> !ValidKey(key))
      && (r == Err(EventNotFound) <==> ValidKey(key) && about.Some? && !Retained(feed, about.value))
      && (r.Ok? <==> ValidKey(key) && (about.Some? ==> Retained(feed, about.value)))
      && (r.Ok? ==>
            && r.value.episodes == feed.episodes && r.value.remediations == feed.remediations
            && r.value.nextEpisode == (if about.Some? then feed.nextEpisode else feed.nextEpisode + 1)
            && EventAdded(feed, r.value, key, if about.Some? then EventAt(feed, about.value).episode else feed.nextEpisode,
                          DiagnosticCollected, Some(job)))
  {
  }

  predicate Drops(feed: Feed, sequence: nat, q: nat) { Retained(feed, q) && q <= sequence }

  /** A prune removes exactly the events up to its limit and their deliveries, unless a claim names one of them. */
  lemma PruneExactly(feed: Feed, sequence: nat)
    requires forall k :: k in feed.deliveries ==> Retained(feed, k.sequence)
    ensures
      var r := Prune(feed, sequence);
      && (r.Ok? <==> forall i :: 0 <= i < |feed.remediations| ==> !Drops(feed, sequence, feed.remediations[i].event))
      && (r.Err? ==> r.error == MissingReference)
      && (r.Ok? ==>
            && Last(r.value) == Last(feed)
            && (forall q: nat :: Retained(r.value, q) <==> Retained(feed, q) && q > sequence)
            && (forall q: nat :: Retained(r.value, q) ==> EventAt(r.value, q) == EventAt(feed, q))
            && (forall k :: k in r.value.deliveries <==> k in feed.deliveries && !Drops(feed, sequence, k.sequence))
            && (forall k :: k in r.value.deliveries ==> r.value.deliveries[k] == feed.deliveries[k])
            && r.value.episodes == feed.episodes && r.value.cursors == feed.cursors
            && r.value.remediations == feed.remediations && r.value.nextEpisode == feed.nextEpisode)
  {
  }

  // ---------------------------------------------------------------- delivery

  lemma SubscribeExactly(feed: Feed, id: string)
    ensures
      var r := EnsureSubscription(feed, id);
      && (r.Ok? <==> Bounded(id, 128)) && (r.Err? ==> r.error == InvalidSubscription)
      && (r.Ok? ==> id in r.value.cursors && r.value == feed.(cursors := feed.cursors[id := r.value.cursors[id]])
                    && r.value.cursors[id] == (if id in feed.cursors then feed.cursors[id] else 0))
  {
  }

  /** Neither closed nor waiting for its retry time. */
  predicate Due(feed: Feed, k: DeliveryKey, now: int) {
    k in feed.deliveries ==>
      feed.deliveries[k].stage == StageQueued && (feed.deliveries[k].retryAt.Some? ==> feed.deliveries[k].retryAt.value <= now)
  }

  function AttemptsOf(feed: Feed, k: DeliveryKey): (n: nat) { if k in feed.deliveries then feed.deliveries[k].attempts else 0 }

  /** An attempt is granted exactly when it is due and its subscription and event exist. */
  lemma GrantExactly(feed: Feed, id: string, sequence: nat, retryAfter: nat, now: int)
    ensures
      var r := BeginDelivery(feed, id, sequence, retryAfter, now);
      var k := DeliveryKey(id, sequence);
      var known := id in feed.cursors && Retained(feed, sequence);
      && (r == Ok(Denied) <==> !Due(feed, k, now))
      && (r == Err(MissingReference) <==> Due(feed, k, now) && !known)
      && (r.Ok? && r.value.Granted? <==> Due(feed, k, now) && known)
      && (r.Ok? && r.value.Granted? ==>
            && r.value.attempts == AttemptsOf(feed, k) + 1
            && r.value.feed == feed.(deliveries :=
                 feed.deliveries[k := DeliveryRow(StageQueued, r.value.attempts, Some(now + retryAfter))]))
  {
  }

  function Later(a: nat, b: nat): (m: nat) { if a < b then b else a }

  /** An acknowledgement closes exactly its intent and raises exactly its cursor. */
  lemma AcknowledgeExactly(feed: Feed, id: string, sequence: nat, stage: DeliveryStage)
    ensures
      var r := Acknowledge(feed, id, sequence, stage);
      var k := DeliveryKey(id, sequence);
      && (r == Err(NotFinal) <==> stage == StageQueued)
      && (r == Err(IntentNotFound) <==> stage != StageQueued && k !in feed.deliveries)
      && (r.Ok? <==> stage != StageQueued && k in feed.deliveries)
      && (r.Ok? ==>
            && k in r.value.deliveries && r.value.deliveries == feed.deliveries[k := r.value.deliveries[k]]
            && r.value.deliveries[k] == DeliveryRow(stage, feed.deliveries[k].attempts, None)
            && r.value == feed.(deliveries := r.value.deliveries, cursors := r.value.cursors)
            && SkipsTo(feed, r.value, id, sequence))
  {
  }

  /** The cursor is the later of itself and the sequence; the others, and unknown ones, stay. */
  predicate SkipsTo(feed: Feed, feed': Feed, id: string, sequence: nat) {
    && feed'.cursors.Keys == feed.cursors.Keys
    && (forall i :: i in feed.cursors ==>
          feed'.cursors[i] == if i == id then Later(feed.cursors[i], sequence) else feed.cursors[i])
  }

  lemma SkipExactly(feed: Feed, id: string, sequence: nat)
    ensures SkipsTo(feed, Advance(feed, id, sequence), id, sequence)
    ensures Advance(feed, id, sequence) == feed.(cursors := Advance(feed, id, sequence).cursors)
  {
  }

  /** The next event is the first retained one after the cursor. */
  ghost predicate FirstAfter(feed: Feed, at: nat, next: Option<FleetEvent>) {
    && (next.None? <==> forall q: nat :: Retained(feed, q) ==> q <= at)
    && (next.Some? ==>
          && at < next.value.sequence && Retained(feed, next.value.sequence)
          && EventAt(feed, next.value.sequence) == next.value
          && (forall q: nat :: Retained(feed, q) ==> q <= at || next.value.sequence <= q))
  }

  lemma NextIsFirst(feed: Feed, at: nat)
    requires Sequenced(feed)
    ensures FirstAfter(feed, at, NextEvent(feed, at))
  {
    var next := NextEvent(feed, at);
    if next.None? {
      assert forall q: nat :: Retained(feed, q) ==> q <= at;
    } else {
      assert Retained(feed, next.value.sequence);
    }
  }

  /** What a round on this event leaves: nothing new, the event passed over, closed, or waiting for its next attempt. */
  predicate RoundLeaves(feed: Feed, feed': Feed, id: string, sink: Sink, e: FleetEvent, now: int, answer: Option<DeliveryStage>) {
    var k := DeliveryKey(id, e.sequence);
    if !Matches(sink, e) then feed' == feed.(cursors := feed.cursors[id := e.sequence])
    else if !Due(feed, k, now) then feed' == feed
    else if answer.Some? && answer.value != StageQueued then
      feed' == feed.(deliveries := feed.deliveries[k := DeliveryRow(answer.value, AttemptsOf(feed, k) + 1, None)],
                     cursors := feed.cursors[id := e.sequence])
    else
      feed' == feed.(deliveries :=
        feed.deliveries[k := DeliveryRow(StageQueued, AttemptsOf(feed, k) + 1, Some(now + sink.retryAfter))])
  }

  lemma RoundOnEvent(feed: Feed, id: string, sink: Sink, now: int, answer: Option<DeliveryStage>)
    requires id in feed.cursors && NextEvent(feed, feed.cursors[id]).Some?
    requires FirstAfter(feed, feed.cursors[id], NextEvent(feed, feed.cursors[id]))
    ensures RoundLeaves(feed, RoundFeed(feed, id, sink, now, answer), id, sink, NextEvent(feed, feed.cursors[id]).value, now, answer)
  {
    GrantExactly(feed, id, NextEvent(feed, feed.cursors[id]).value.sequence, sink.retryAfter, now);
  }

  /**
   After any run, a round passes over an event outside the filter, does nothing
   before the retry time, and otherwise sends the event: a final answer of the sink
   closes the intent and moves the cursor onto the event, and without one the
   intent waits for its next attempt with the cursor before it.
   */
  lemma RoundExactly(s: Courier, steps: seq<Step>, id: string, now: int, answer: Option<DeliveryStage>)
    requires Initial(s) && id in s.sinks && id in RunSteps(s, steps).feed.cursors
    ensures
      var feed := RunSteps(s, steps).feed;
      var next := NextEvent(feed, feed.cursors[id]);
      var feed' := RoundFeed(feed, id, s.sinks[id], now, answer);
      && FirstAfter(feed, feed.cursors[id], next)
      && (if next.None? then feed' == feed else RoundLeaves(feed, feed', id, s.sinks[id], next.value, now, answer))
  {
    RunIsSafe(s, steps);
    var feed := RunSteps(s, steps).feed;
    NextIsFirst(feed, feed.cursors[id]);
    if NextEvent(feed, feed.cursors[id]).Some? {
      RoundOnEvent(feed, id, s.sinks[id], now, answer);
    }
  }

  // ---------------------------------------------------------------- remediation claims

  /** The claims on an episode, by position. */
  function ClaimsOn(rs: seq<Remediation>, episode: nat): (s: set<nat>) {
    set i: nat | i < |rs| && rs[i].episode == episode
  }

  lemma {:induction false} CountIsCardinality(rs: seq<Remediation>, episode: nat)
    ensures Count(rs, episode) == |ClaimsOn(rs, episode)|
    decreases |rs|
  {
    if rs != [] {
      var n := |rs| - 1;
      CountIsCardinality(rs[..n], episode);
      var before := ClaimsOn(rs[..n], episode);
      assert ClaimsOn(rs, episode) == if rs[n].episode == episode then before + {n} else before;
    }
  }

  predicate NoneActive(rs: seq<Remediation>, episode: nat, host: string) {
    forall i :: 0 <= i < |rs| && IsActiveRemediation(rs[i]) ==> rs[i].episode != episode && rs[i].host != host
  }

  predicate Cooled(rs: seq<Remediation>, episode: nat, cooldown: nat, now: int) {
    forall i :: 0 <= i < |rs| && rs[i].episode == episode ==> rs[i].startedAt + cooldown <= now
  }

  lemma {:induction false} LatestStartDecides(rs: seq<Remediation>, episode: nat, cooldown: nat, now: int)
    ensures
      var last := LatestStart(rs, episode);
      Cooled(rs, episode, cooldown, now) <==> (last.Some? ==> now - last.value >= cooldown)
    decreases |rs|
  {
    if rs != [] {
      var n := |rs| - 1;
      LatestStartDecides(rs[..n], episode, cooldown, now);
      assert Cooled(rs, episode, cooldown, now) <==>
        Cooled(rs[..n], episode, cooldown, now) && (rs[n].episode == episode ==> rs[n].startedAt + cooldown <= now);
    }
  }

  predicate Repeats(rs: seq<Remediation>, job: JobId, principal: string) {
    exists i :: 0 <= i < |rs| && rs[i].job == Some(job) && rs[i].principal == principal
  }

  /**
   A new claim is granted exactly when the policy allows attempts, the job holds
   no claim, the event is retained for the host, nothing is active on its episode
   or host, attempts remain, and every earlier start has cooled down.
   */
  lemma ClaimIsGrantedExactly(feed: Feed, event: nat, host: string, principal: string, job: JobId, m: nat, c: nat, now: int)
    ensures
      var r := BeginRemediation(feed, event, host, principal, job, m, c, now);
      var rs := feed.remediations;
      var asked := m > 0 && !Repeats(rs, job, principal);
      var found := asked && Retained(feed, event) && EventAt(feed, event).key.host == host;
      && (r == Err(InvalidPolicy) <==> m == 0)
      && (r == Err(EventNotFound) <==> asked && !found)
      && (found ==>
            var episode := EventAt(feed, event).episode;
            && (r.Ok? <==> NoneActive(rs, episode, host) && |ClaimsOn(rs, episode)| < m && Cooled(rs, episode, c, now))
            && (r in {Err(ActiveForEpisode), Err(ActiveForHost)} <==> !NoneActive(rs, episode, host))
            && (r == Err(BudgetExhausted) <==> NoneActive(rs, episode, host) && |ClaimsOn(rs, episode)| >= m)
            && (r.Ok? ==> r.value.created && ClaimGranted(feed, r.value, event, host, principal, job, now)))
      && (r.Ok? && r.value.created ==> found)
      && (r.Ok? && !r.value.created ==> r.value.feed == feed && ClaimStands(rs, r.value.id, job, principal))
  {
    var rs := feed.remediations;
    if m > 0 && !Repeats(rs, job, principal) && Retained(feed, event) {
      var episode := EventAt(feed, event).episode;
      CountIsCardinality(rs, episode);
      LatestStartDecides(rs, episode, c, now);
    } else if m > 0 && Repeats(rs, job, principal) {
      FindsStandingClaim(rs, FindClaim(rs, job, principal).value, job, principal);
    }
  }

  /** The claim is the next attempt on the episode of its event, active, with one event that says so. */
  ghost predicate ClaimGranted(feed: Feed, claim: Claim, event: nat, host: string, principal: string, job: JobId, now: int)
    requires Retained(feed, event)
  {
    var e, rs := EventAt(feed, event), feed.remediations;
    && claim.id == |rs| && |claim.feed.remediations| == |rs| + 1 && claim.feed.remediations[..|rs|] == rs
    && (var r := claim.feed.remediations[|rs|];
        && r.event == event && r.episode == e.episode && r.host == host && r.principal == principal
        && r.job == Some(job) && r.startedAt == now && r.revision == 1 && r.state == RemediationActive
        && r.attempt == |ClaimsOn(rs, e.episode)| + 1)
    && EventAdded(feed, claim.feed, AlertKey("maxops.remediation", e.key.fingerprint, host), e.episode, RemediationStarted, Some(job))
    && claim.feed.episodes == feed.episodes && claim.feed.nextEpisode == feed.nextEpisode
  }

  /** A finish closes exactly the active claim of its principal at its revision, and says so in one event. */
  lemma FinishExactly(feed: Feed, id: nat, principal: string, expected: nat, outcome: RemediationState, summary: string,
                      job: Option<JobId>)
    requires Backed(feed)
    ensures
      var r := FinishRemediation(feed, id, principal, expected, outcome, summary, job);
      var rs := feed.remediations;
      var asked := outcome != RemediationActive && Bounded(summary, 1024);
      var found := asked && id < |rs| && rs[id].principal == principal;
      var current := found && rs[id].revision == expected;
      && (r == Err(InvalidOutcome) <==> !asked)
      && (r == Err(RemediationNotFound) <==> asked && !found)
      && (r == Err(RemediationChanged) <==> found && !current)
      && (r == Err(RemediationTerminal) <==> current && rs[id].state != RemediationActive)
      && (r.Ok? <==> current && rs[id].state == RemediationActive)
      && (r.Ok? ==>
            && |r.value.remediations| == |rs| && r.value.remediations == rs[id := r.value.remediations[id]]
            && (var closed := r.value.remediations[id];
                && closed == rs[id].(state := outcome, revision := expected + 1, job := job)
                && EventAdded(feed, r.value,
                     AlertKey("maxops.remediation", EventAt(feed, closed.event).key.fingerprint, closed.host), closed.episode,
                     RemediationFinished, job)
                && r.value.episodes == feed.episodes && r.value.nextEpisode == feed.nextEpisode))
  {
    if id < |feed.remediations| {
      assert ClaimBacked(feed, feed.remediations[id]);
    }
  }
}
