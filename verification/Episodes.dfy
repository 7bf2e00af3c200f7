/**
 Alert episodes against a simple reference: walking the history of one alert, a
 firing that finds it inactive opens a new episode, and nothing else does.
 */
module Episodes {
  import opened Wrappers
  import opened EventModel
  import opened Remediations

  /** The tables and every event ever inserted, pruned or not. */
  datatype Traced = Traced(feed: Feed, log: seq<FleetEvent>)

  predicate IsAlert(e: FleetEvent, key: AlertKey) {
    e.key == key && (e.kind == AlertFiring || e.kind == AlertResolved)
  }

  /** Whether the last alert event for the key was a firing. */
  function ActiveAfter(log: seq<FleetEvent>, key: AlertKey): (b: bool) {
    if log == [] then false
    else if IsAlert(log[|log| - 1], key) then log[|log| - 1].kind == AlertFiring
    else ActiveAfter(log[..|log| - 1], key)
  }

  predicate Seen(log: seq<FleetEvent>, key: AlertKey) {
    exists i :: 0 <= i < |log| && IsAlert(log[i], key)
  }

  /** A firing that follows an inactive state. */
  predicate Opens(log: seq<FleetEvent>, key: AlertKey, p: nat)
    requires p < |log|
  {
    IsAlert(log[p], key) && log[p].kind == AlertFiring && !ActiveAfter(log[..p], key)
  }

  predicate Quiet(log: seq<FleetEvent>, key: AlertKey, i: nat, j: nat)
    requires j < |log|
  {
    forall p :: i < p <= j ==> !Opens(log, key, p)
  }

  /** Alert events of one key share an episode exactly over quiet stretches. */
  predicate Explained(log: seq<FleetEvent>, key: AlertKey) {
    forall i, j :: 0 <= i < j < |log| && IsAlert(log[i], key) && IsAlert(log[j], key) ==>
      (log[i].episode == log[j].episode <==> Quiet(log, key, i, j))
  }

  predicate RowMatches(t: Traced, key: AlertKey) {
    && (key in t.feed.episodes <==> Seen(t.log, key))
    && (key in t.feed.episodes ==>
          && t.feed.episodes[key].active == ActiveAfter(t.log, key)
          && t.feed.episodes[key].episode < t.feed.nextEpisode
          && (forall i :: 0 <= i < |t.log| && IsAlert(t.log[i], key) ==>
                (t.log[i].episode == t.feed.episodes[key].episode <==> Quiet(t.log, key, i, |t.log| - 1))))
  }

  ghost predicate Sound(t: Traced) {
    && Last(t.feed) == |t.log| && t.feed.events == t.log[t.feed.pruned..]
    && (forall i :: 0 <= i < |t.log| ==> t.log[i].episode < t.feed.nextEpisode)
    && (forall key :: RowMatches(t, key) && Explained(t.log, key))
    && Apart(t.log)
  }

  /** Alerts of different keys never share an episode. */
  predicate Apart(log: seq<FleetEvent>) {
    forall i, j :: 0 <= i < |log| && 0 <= j < |log| && SharesAlert(log, i, j) ==> log[i].key == log[j].key
  }

  predicate SharesAlert(log: seq<FleetEvent>, i: nat, j: nat)
    requires i < |log| && j < |log|
  {
    IsAlert(log[i], log[i].key) && IsAlert(log[j], log[j].key) && log[i].episode == log[j].episode
  }

  /** A transaction inserts at most one event. */
  function Track(t: Traced, op: FeedOp): (r: Traced) {
    var feed := ApplyFeed(t.feed, op);
    Traced(feed, if Last(feed) > Last(t.feed) && feed.events != [] then t.log + [feed.events[|feed.events| - 1]] else t.log)
  }

  function TrackAll(t: Traced, ops: seq<FeedOp>): (r: Traced)
    decreases |ops|
  {
    if ops == [] then t else TrackAll(Track(t, ops[0]), ops[1..])
  }

  // ---------------------------------------------------------------- one more event

  lemma OpensIsStable(log: seq<FleetEvent>, e: FleetEvent, key: AlertKey)
    ensures forall p :: 0 <= p < |log| ==> Opens(log + [e], key, p) == Opens(log, key, p)
    ensures Opens(log + [e], key, |log|) <==> IsAlert(e, key) && e.kind == AlertFiring && !ActiveAfter(log, key)
    ensures ActiveAfter(log + [e], key) == if IsAlert(e, key) then e.kind == AlertFiring else ActiveAfter(log, key)
  {
    assert (log + [e])[..|log|] == log;
    forall p | 0 <= p < |log| ensures Opens(log + [e], key, p) == Opens(log, key, p) {
      assert (log + [e])[..p] == log[..p];
    }
  }

  lemma QuietGrows(log: seq<FleetEvent>, e: FleetEvent, key: AlertKey, i: nat)
    requires i < |log|
    ensures Quiet(log + [e], key, i, |log|) <==> Quiet(log, key, i, |log| - 1) && !Opens(log + [e], key, |log|)
    ensures forall j :: i < j < |log| ==> Quiet(log + [e], key, i, j) == Quiet(log, key, i, j)
  {
    OpensIsStable(log, e, key);
  }

  /** An event that is no alert for the key leaves its row and its history as they were. */
  lemma OtherEventKeepsKey(t: Traced, feed: Feed, e: FleetEvent, key: AlertKey)
    requires RowMatches(t, key) && Explained(t.log, key) && !IsAlert(e, key)
    requires key in feed.episodes <==> key in t.feed.episodes
    requires key in feed.episodes ==> feed.episodes[key] == t.feed.episodes[key]
    requires t.feed.nextEpisode <= feed.nextEpisode
    ensures RowMatches(Traced(feed, t.log + [e]), key) && Explained(t.log + [e], key)
  {
    var log' := t.log + [e];
    OpensIsStable(t.log, e, key);
    forall i | 0 <= i < |t.log| && IsAlert(t.log[i], key)
      ensures Quiet(log', key, i, |t.log|) == Quiet(t.log, key, i, |t.log| - 1)
    {
      QuietGrows(t.log, e, key, i);
    }
    assert Seen(log', key) <==> Seen(t.log, key) by {
      if Seen(t.log, key) {
        var i :| 0 <= i < |t.log| && IsAlert(t.log[i], key);
        assert IsAlert(log'[i], key);
      }
    }
    assert Explained(log', key) by {
      forall i, j | 0 <= i < j < |log'| && IsAlert(log'[i], key) && IsAlert(log'[j], key)
        ensures log'[i].episode == log'[j].episode <==> Quiet(log', key, i, j)
      {
        QuietGrows(t.log, e, key, i);
      }
    }
  }

  /** An alert joins the row's episode or, when it opens one, gets a number never used before. */
  lemma AlertKeepsKey(t: Traced, feed: Feed, e: FleetEvent, key: AlertKey)
    requires RowMatches(t, key) && Explained(t.log, key) && IsAlert(e, key)
    requires forall i :: 0 <= i < |t.log| ==> t.log[i].episode < t.feed.nextEpisode
    requires key in feed.episodes && feed.episodes[key] == EpisodeRow(e.episode, e.kind == AlertFiring)
    requires
      var known := key in t.feed.episodes && (e.kind == AlertResolved || t.feed.episodes[key].active);
      && e.episode == (if known then t.feed.episodes[key].episode else t.feed.nextEpisode)
      && feed.nextEpisode == (if known then t.feed.nextEpisode else t.feed.nextEpisode + 1)
    ensures RowMatches(Traced(feed, t.log + [e]), key) && Explained(t.log + [e], key)
  {
    var log' := t.log + [e];
    OpensIsStable(t.log, e, key);
    assert IsAlert(log'[|t.log|], key);
    forall i | 0 <= i < |t.log| && IsAlert(t.log[i], key)
      ensures t.log[i].episode == e.episode <==> Quiet(log', key, i, |t.log|)
    {
      QuietGrows(t.log, e, key, i);
      assert Seen(t.log, key);
    }
    assert Explained(log', key) by {
      forall i, j | 0 <= i < j < |log'| && IsAlert(log'[i], key) && IsAlert(log'[j], key)
        ensures log'[i].episode == log'[j].episode <==> Quiet(log', key, i, j)
      {
        QuietGrows(t.log, e, key, i);
      }
    }
  }

  /** An event of a known episode was preceded by one of the same key and episode. */
  lemma StaysApart(log: seq<FleetEvent>, e: FleetEvent, next: nat)
    requires Apart(log) && (forall i :: 0 <= i < |log| ==> log[i].episode < next)
    requires IsAlert(e, e.key) ==>
      e.episode >= next || exists k :: 0 <= k < |log| && IsAlert(log[k], e.key) && log[k].episode == e.episode
    ensures Apart(log + [e])
  {
    var log' := log + [e];
    forall i, j | 0 <= i < |log'| && 0 <= j < |log'| && SharesAlert(log', i, j) ensures log'[i].key == log'[j].key {
      if i < |log| && j < |log| {
        assert SharesAlert(log, i, j);
      } else if IsAlert(e, e.key) && e.episode < next {
        var k :| 0 <= k < |log| && IsAlert(log[k], e.key) && log[k].episode == e.episode;
        assert i < |log| ==> SharesAlert(log, i, k);
        assert j < |log| ==> SharesAlert(log, j, k);
      }
    }
  }

  /** The row's episode is the one of the last alert event of its key. */
  lemma RowHasEvent(t: Traced, key: AlertKey)
    requires RowMatches(t, key) && key in t.feed.episodes
    ensures exists k :: 0 <= k < |t.log| && IsAlert(t.log[k], key) && t.log[k].episode == t.feed.episodes[key].episode
  {
    var k := LastAlert(t.log, key);
    assert Quiet(t.log, key, k, |t.log| - 1);
  }

  lemma {:induction false} LastAlert(log: seq<FleetEvent>, key: AlertKey) returns (k: nat)
    requires Seen(log, key)
    ensures k < |log| && IsAlert(log[k], key) && forall p :: k < p < |log| ==> !IsAlert(log[p], key)
    decreases |log|
  {
    if IsAlert(log[|log| - 1], key) {
      k := |log| - 1;
    } else {
      var before := log[..|log| - 1];
      var i :| 0 <= i < |log| && IsAlert(log[i], key);
      assert IsAlert(before[i], key);
      k := LastAlert(before, key);
    }
  }

  // ---------------------------------------------------------------- every transaction

  predicate Inserts(t: Traced, feed: Feed, e: FleetEvent) {
    && feed.pruned == t.feed.pruned && feed.events == t.feed.events + [e]
    && t.feed.nextEpisode <= feed.nextEpisode && e.episode < feed.nextEpisode
  }

  lemma InsertKeepsShape(t: Traced, feed: Feed, e: FleetEvent)
    requires Last(t.feed) == |t.log| && t.feed.events == t.log[t.feed.pruned..] && Inserts(t, feed, e)
    requires forall i :: 0 <= i < |t.log| ==> t.log[i].episode < t.feed.nextEpisode
    ensures
      var log' := t.log + [e];
      && Last(feed) == |log'| && feed.events == log'[feed.pruned..]
      && forall i :: 0 <= i < |log'| ==> log'[i].episode < feed.nextEpisode
  {
  }

  lemma NonAlertIsSound(t: Traced, feed: Feed, e: FleetEvent)
    requires Sound(t) && Inserts(t, feed, e) && feed.episodes == t.feed.episodes && !IsAlert(e, e.key)
    ensures Sound(Traced(feed, t.log + [e]))
  {
    InsertKeepsShape(t, feed, e);
    StaysApart(t.log, e, t.feed.nextEpisode);
    forall key ensures RowMatches(Traced(feed, t.log + [e]), key) && Explained(t.log + [e], key) {
      OtherEventKeepsKey(t, feed, e, key);
    }
  }

  lemma IngestIsSound(t: Traced, key: AlertKey, firing: bool)
    requires Sound(t) && ValidKey(key)
    ensures Sound(Track(t, DoIngest(key, firing)))
  {
    var feed := IngestAlert(t.feed, key, firing).value;
    var e := feed.events[|t.feed.events|];
    assert RowMatches(t, key);
    if key in t.feed.episodes {
      RowHasEvent(t, key);
    }
    assert Inserts(t, feed, e);
    InsertKeepsShape(t, feed, e);
    StaysApart(t.log, e, t.feed.nextEpisode);
    forall other ensures RowMatches(Traced(feed, t.log + [e]), other) && Explained(t.log + [e], other) {
      assert RowMatches(t, other) && Explained(t.log, other);
      if other == key {
        AlertKeepsKey(t, feed, e, key);
      } else {
        OtherEventKeepsKey(t, feed, e, other);
      }
    }
  }

  lemma PruneIsSound(t: Traced, sequence: nat)
    requires Sound(t)
    ensures Sound(Track(t, DoPrune(sequence)))
  {
    var t' := Track(t, DoPrune(sequence));
    assert t'.feed.events == t.log[t'.feed.pruned..];
    SameRows(t, t');
  }

  /** Tables that differ only outside the episodes and the log. */
  lemma SameRows(t: Traced, t': Traced)
    requires Sound(t) && t'.log == t.log && t'.feed.episodes == t.feed.episodes
    requires t'.feed.nextEpisode == t.feed.nextEpisode
    requires Last(t'.feed) == |t.log| && t'.feed.events == t.log[t'.feed.pruned..]
    ensures Sound(t')
  {
    forall key ensures RowMatches(t', key) && Explained(t'.log, key) {
      assert RowMatches(t, key) && Explained(t.log, key);
    }
  }

  /** The episode of a retained event is one that was issued. */
  lemma RetainedEpisode(t: Traced, sequence: nat)
    requires Sound(t) && Retained(t.feed, sequence)
    ensures EventAt(t.feed, sequence).episode < t.feed.nextEpisode
  {
    assert EventAt(t.feed, sequence) == t.log[sequence - 1];
  }

  lemma DiagnoseIsSound(t: Traced, op: FeedOp)
    requires Sound(t) && op.DoDiagnose? && AppendDiagnostic(t.feed, op.key, op.about, op.job).Ok?
    ensures Sound(Track(t, op))
  {
    if op.about.Some? {
      RetainedEpisode(t, op.about.value);
    }
    var feed := ApplyFeed(t.feed, op);
    NonAlertIsSound(t, feed, feed.events[|t.feed.events|]);
  }

  lemma BeginIsSound(t: Traced, op: FeedOp)
    requires Sound(t) && op.DoBegin?
    requires
      var c := BeginRemediation(t.feed, op.event, op.host, op.principal, op.job, op.maxAttempts, op.cooldown, op.now);
      c.Ok? && c.value.created
    ensures Sound(Track(t, op))
  {
    RetainedEpisode(t, op.event);
    var feed := ApplyFeed(t.feed, op);
    NonAlertIsSound(t, feed, feed.events[|t.feed.events|]);
  }

  lemma FinishIsSound(t: Traced, op: FeedOp)
    requires Sound(t) && Backed(t.feed) && op.DoFinish?
    requires FinishRemediation(t.feed, op.claim, op.principal, op.expected, op.outcome, op.summary, op.related).Ok?
    ensures Sound(Track(t, op))
  {
    assert ClaimBacked(t.feed, t.feed.remediations[op.claim]);
    RetainedEpisode(t, t.feed.remediations[op.claim].event);
    var feed := ApplyFeed(t.feed, op);
    NonAlertIsSound(t, feed, feed.events[|t.feed.events|]);
  }

  lemma BeginTracked(t: Traced, op: FeedOp)
    requires Sound(t) && op.DoBegin?
    ensures Sound(Track(t, op))
  {
    var claim := BeginRemediation(t.feed, op.event, op.host, op.principal, op.job, op.maxAttempts, op.cooldown, op.now);
    if claim.Ok? && claim.value.created {
      BeginIsSound(t, op);
    } else {
      assert Track(t, op) == t;
    }
  }

  lemma FinishTracked(t: Traced, op: FeedOp)
    requires Sound(t) && Backed(t.feed) && op.DoFinish?
    ensures Sound(Track(t, op))
  {
    if FinishRemediation(t.feed, op.claim, op.principal, op.expected, op.outcome, op.summary, op.related).Ok? {
      FinishIsSound(t, op);
    } else {
      assert Track(t, op) == t;
    }
  }

  lemma TrackIsSound(t: Traced, op: FeedOp)
    requires Sound(t) && Backed(t.feed)
    ensures Sound(Track(t, op)) && Backed(Track(t, op).feed)
  {
    ApplyKeepsBacked(t.feed, op);
    match op
    case DoPrune(sequence) => PruneIsSound(t, sequence);
    case DoIngest(key, firing) =>
      if ValidKey(key) {
        IngestIsSound(t, key, firing);
      }
    case DoDiagnose(key, about, job) =>
      if AppendDiagnostic(t.feed, key, about, job).Ok? {
        DiagnoseIsSound(t, op);
      }
    case DoBegin(event, host, principal, job, m, c, now) =>
      BeginTracked(t, op);
    case DoFinish(claim, principal, expected, outcome, summary, related) =>
      FinishTracked(t, op);
    case _ => TableOpIsSound(t, op);
  }

  lemma TableOpIsSound(t: Traced, op: FeedOp)
    requires Sound(t) && (op.DoEnsure? || op.DoBeginDelivery? || op.DoAcknowledge? || op.DoSkip?)
    ensures Sound(Track(t, op))
  {
    TableOpShape(t.feed, op);
    SameRows(t, Track(t, op));
  }

  lemma TableOpShape(feed: Feed, op: FeedOp)
    requires op.DoEnsure? || op.DoBeginDelivery? || op.DoAcknowledge? || op.DoSkip?
    ensures
      var feed' := ApplyFeed(feed, op);
      feed' == feed.(cursors := feed'.cursors, deliveries := feed'.deliveries)
  {
  }

  lemma {:induction false} TrackAllIsSound(t: Traced, ops: seq<FeedOp>)
    requires Sound(t) && Backed(t.feed)
    ensures Sound(TrackAll(t, ops))
    decreases |ops|
  {
    if ops != [] {
      TrackIsSound(t, ops[0]);
      TrackAllIsSound(Track(t, ops[0]), ops[1..]);
    }
  }

  /**
   Over every run, two alert events share an episode exactly when they belong to
   the same alert and no firing that follows an inactive state lies after the
   earlier one and up to the later one.
   */
  lemma EpisodesRefineHistory(ops: seq<FeedOp>, i: nat, j: nat)
    requires
      var log := TrackAll(Traced(NO_EVENTS, []), ops).log;
      i < j < |log| && IsAlert(log[i], log[i].key) && IsAlert(log[j], log[j].key)
    ensures
      var t := TrackAll(Traced(NO_EVENTS, []), ops);
      && t.feed.pruned <= |t.log| && t.feed.events == t.log[t.feed.pruned..]
      && (t.log[i].episode == t.log[j].episode <==> t.log[i].key == t.log[j].key && Quiet(t.log, t.log[i].key, i, j))
  {
    TrackAllIsSound(Traced(NO_EVENTS, []), ops);
    var t := TrackAll(Traced(NO_EVENTS, []), ops);
    if t.log[i].episode == t.log[j].episode {
      assert SharesAlert(t.log, i, j);
    }
    assert Explained(t.log, t.log[i].key);
  }
}
