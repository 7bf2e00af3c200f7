/**
 The event side of the store object.  As in `DurableStore`, every method is one
 transaction under the writer mutex and is proved against its function in
 `EventModel`; `Valid` is the foreign key from remediations to retained events.
 */
module EventStore {
  import opened Wrappers
  import opened Jobs
  import opened EventModel
  import Remediations
  import Delivery
  import opened Utf8

  class Events {
    var pruned: nat
    var events: seq<FleetEvent>
    var episodes: map<AlertKey, EpisodeRow>
    var nextEpisode: nat
    var cursors: map<string, nat>
    var deliveries: map<DeliveryKey, DeliveryRow>
    var remediations: seq<Remediation>

    ghost function Tables(): (feed: Feed)
      reads this
    {
      Feed(pruned, events, episodes, nextEpisode, cursors, deliveries, remediations)
    }

    ghost predicate Valid()
      reads this
    {
      Remediations.Backed(Tables())
    }

    constructor ()
      ensures Valid() && Tables() == NO_EVENTS
    {
      pruned, events, episodes, nextEpisode := 0, [], map[], 0;
      cursors, deliveries, remediations := map[], map[], [];
    }

    method InsertFleetEvent(key: AlertKey, episode: nat, kind: EventKind, job: Option<JobId>)
      modifies this`events
      ensures Tables() == Insert(old(Tables()), key, episode, kind, job)
    {
      events := events + [FleetEvent(pruned + |events| + 1, key, episode, kind, job)];
    }

    method IngestAlert(key: AlertKey, firing: bool) returns (r: Result<FleetEvent, FeedError>)
      requires Valid()
      modifies this
      ensures Valid()
      ensures match EventModel.IngestAlert(old(Tables()), key, firing)
              case Err(e) => r == Err(e) && Tables() == old(Tables())
              case Ok(feed) => Tables() == feed && r == Ok(EventAt(feed, Last(feed)))
    {
      Remediations.ApplyKeepsBacked(Tables(), DoIngest(key, firing));
      if !ValidKey(key) {
        return Err(InvalidEvent);
      }
      var episode := nextEpisode;
      if key in episodes && firing && episodes[key].active {
        episode := episodes[key].episode;
      } else if key in episodes && !firing {
        episode := episodes[key].episode;
      } else {
        nextEpisode := nextEpisode + 1;
      }
      episodes := episodes[key := EpisodeRow(episode, firing)];
      InsertFleetEvent(key, episode, if firing then AlertFiring else AlertResolved, None);
      r := Ok(events[|events| - 1]);
    }

    method PruneEventsThrough(sequence: nat) returns (r: Result<nat, FeedError>)
      requires Valid()
      modifies this
      ensures Valid()
      ensures match Prune(old(Tables()), sequence)
              case Err(e) => r == Err(e) && Tables() == old(Tables())
              case Ok(feed) => Tables() == feed && r == Ok(feed.pruned - old(pruned))
    {
      ghost var pruning := Prune(Tables(), sequence);
      assert pruning.Ok? ==> Remediations.Backed(pruning.value) by {
        Remediations.PruneKeepsBacked(Tables(), sequence);
      }
      var upTo := PruneLimit(pruned, pruned + |events|, sequence);
      if Referred(remediations, pruned, upTo) {
        return Err(MissingReference);
      }
      r := Ok(upTo - pruned);
      events := events[upTo - pruned..];
      deliveries := DeliveriesAfter(deliveries, upTo);
      pruned := upTo;
      assert pruning == Ok(Tables());
    }

    method BeginDelivery(id: string, sequence: nat, retryAfter: nat, now: int) returns (r: Result<Option<nat>, FeedError>)
      requires Valid()
      modifies this
      ensures Valid()
      ensures match EventModel.BeginDelivery(old(Tables()), id, sequence, retryAfter, now)
              case Err(e) => r == Err(e) && Tables() == old(Tables())
              case Ok(Denied) => r == Ok(None) && Tables() == old(Tables())
              case Ok(Granted(feed, attempts)) => Tables() == feed && r == Ok(Some(attempts))
    {
      Remediations.ApplyKeepsBacked(Tables(), DoBeginDelivery(id, sequence, retryAfter, now));
      var k := DeliveryKey(id, sequence);
      var attempts := 1;
      if k in deliveries {
        var row := deliveries[k];
        if row.stage != StageQueued {
          return Ok(None);
        }
        if row.retryAt.Some? && row.retryAt.value > now {
          return Ok(None);
        }
        attempts := row.attempts + 1;
      }
      if id !in cursors || !(pruned < sequence <= pruned + |events|) {
        return Err(MissingReference);
      }
      deliveries := deliveries[k := DeliveryRow(StageQueued, attempts, Some(now + retryAfter))];
      r := Ok(Some(attempts));
    }

    method AcknowledgeDelivery(id: string, sequence: nat, stage: DeliveryStage) returns (r: Result<(), FeedError>)
      requires Valid()
      modifies this
      ensures Valid()
      ensures match Acknowledge(old(Tables()), id, sequence, stage)
              case Err(e) => r == Err(e) && Tables() == old(Tables())
              case Ok(feed) => r.Ok? && Tables() == feed
    {
      Remediations.ApplyKeepsBacked(Tables(), DoAcknowledge(id, sequence, stage));
      var k := DeliveryKey(id, sequence);
      if stage == StageQueued {
        return Err(NotFinal);
      }
      if k !in deliveries {
        return Err(IntentNotFound);
      }
      deliveries := deliveries[k := deliveries[k].(stage := stage, retryAt := None)];
      SkipSubscriptionEvent(id, sequence);
      r := Ok(());
    }

    method SkipSubscriptionEvent(id: string, sequence: nat)
      modifies this`cursors
      ensures Tables() == Advance(old(Tables()), id, sequence)
    {
      if id in cursors && cursors[id] < sequence {
        cursors := cursors[id := sequence];
      }
    }

    method BeginRemediation(event: nat, host: string, principal: string, job: JobId, maxAttempts: nat, cooldown: nat, now: int)
      returns (r: Result<Remediation, FeedError>)
      requires Valid()
      modifies this
      ensures Valid()
      ensures match EventModel.BeginRemediation(old(Tables()), event, host, principal, job, maxAttempts, cooldown, now)
              case Err(e) => r == Err(e) && Tables() == old(Tables())
              case Ok(c) => Tables() == c.feed && c.id < |remediations| && r == Ok(remediations[c.id])
    {
      if maxAttempts == 0 {
        return Err(InvalidPolicy);
      }
      var existing := FindClaim(remediations, job, principal);
      if existing.Some? {
        return Ok(remediations[existing.value]);
      }
      if !(pruned < event <= pruned + |events|) || events[event - pruned - 1].key.host != host {
        return Err(EventNotFound);
      }
      var e := events[event - pruned - 1];
      var refused := CheckClaim(e.episode, host, maxAttempts, cooldown, now);
      if refused.Some? {
        return Err(refused.value);
      }
      ghost var done := EventModel.BeginRemediation(Tables(), event, host, principal, job, maxAttempts, cooldown, now).value.feed;
      assert Remediations.Backed(done) by {
        Remediations.BeginKeepsBacked(Tables(), event, host, principal, job, maxAttempts, cooldown, now);
      }
      var claim := NewClaim(event, e.episode, host, principal, Count(remediations, e.episode) + 1, now, job);
      remediations := remediations + [claim];
      InsertFleetEvent(LifecycleKey(e.key.fingerprint, host), e.episode, RemediationStarted, Some(job));
      assert Tables() == done;
      r := Ok(claim);
    }

    /** The policy's checks, one query after the other. */
    method CheckClaim(episode: nat, host: string, maxAttempts: nat, cooldown: nat, now: int) returns (e: Option<FeedError>)
      ensures e == ClaimRefused(remediations, episode, host, maxAttempts, cooldown, now)
    {
      if exists i :: 0 <= i < |remediations| && remediations[i].episode == episode && IsActiveRemediation(remediations[i]) {
        return Some(ActiveForEpisode);
      }
      if exists i :: 0 <= i < |remediations| && remediations[i].host == host && IsActiveRemediation(remediations[i]) {
        return Some(ActiveForHost);
      }
      if Count(remediations, episode) >= maxAttempts {
        return Some(BudgetExhausted);
      }
      var last := LatestStart(remediations, episode);
      if last.Some? && now - last.value < cooldown {
        return Some(CooldownActive);
      }
      e := None;
    }

    method FinishRemediation(id: nat, principal: string, expected: nat, outcome: RemediationState, summary: string,
                             job: Option<JobId>)
      returns (r: Result<Remediation, FeedError>)
      requires Valid()
      modifies this
      ensures Valid()
      ensures match EventModel.FinishRemediation(old(Tables()), id, principal, expected, outcome, summary, job)
              case Err(e) => r == Err(e) && Tables() == old(Tables())
              case Ok(feed) => Tables() == feed && id < |remediations| && r == Ok(remediations[id])
      ensures r != Err(EventNotFound)
    {
      if outcome == RemediationActive || !Bounded(summary, 1024) {
        return Err(InvalidOutcome);
      }
      if id >= |remediations| || remediations[id].principal != principal {
        return Err(RemediationNotFound);
      }
      var claim := remediations[id];
      if claim.revision != expected {
        return Err(RemediationChanged);
      }
      if !IsActiveRemediation(claim) {
        return Err(RemediationTerminal);
      }
      assert Remediations.ClaimBacked(Tables(), claim);
      ghost var done := EventModel.FinishRemediation(Tables(), id, principal, expected, outcome, summary, job).value;
      assert Remediations.Backed(done) by {
        Remediations.FinishKeepsBacked(Tables(), id, principal, expected, outcome, summary, job);
      }
      var fingerprint := events[claim.event - pruned - 1].key.fingerprint;
      remediations := remediations[id := Closed(claim, outcome, job)];
      InsertFleetEvent(LifecycleKey(fingerprint, claim.host), claim.episode, RemediationFinished, job);
      assert Tables() == done;
      r := Ok(remediations[id]);
    }
  }

  /**
   One delivery round: `answer` is what the sink replied, if the request
   succeeded.  `Delivery.RoundIsProtocol` shows that its tables are those of a
   sequence of delivery steps.
   */
  method DeliverNextEvent(store: Events, id: string, sink: Delivery.Sink, now: int, answer: Option<DeliveryStage>)
    returns (sent: Option<FleetEvent>)
    requires store.Valid()
    modifies store
    ensures store.Valid()
    ensures store.Tables() == Delivery.RoundFeed(old(store.Tables()), id, sink, now, answer)
    ensures
      var feed := old(store.Tables());
      var next := if id in feed.cursors then NextEvent(feed, feed.cursors[id]) else None;
      sent == if next.Some? && Delivery.Sends(feed, id, sink, next.value, now) then next else None
  {
    sent := None;
    if id !in store.cursors {
      return;
    }
    var after := store.cursors[id];
    var from := if after < store.pruned then store.pruned else after;
    if from >= store.pruned + |store.events| {
      return;
    }
    var event := store.events[from - store.pruned];
    if !Delivery.Matches(sink, event) {
      store.SkipSubscriptionEvent(id, event.sequence);
      return;
    }
    var granted := store.BeginDelivery(id, event.sequence, sink.retryAfter, now);
    if granted.Err? || granted.value.None? {
      return;
    }
    sent := Some(event);
    if answer.Some? && answer.value != StageQueued {
      var acknowledged := store.AcknowledgeDelivery(id, event.sequence, answer.value);
    }
  }
}
