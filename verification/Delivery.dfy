/**
 Event delivery to subscriptions with fixed filters.  Any number of delivery
 tasks read a cursor, then an event, then act on it, interleaved with new
 events, pruning and crashes; the sink may confirm at any later time or never.
 */
module Delivery {
  import opened Wrappers
  import opened Jobs
  import opened EventModel

  datatype Sink = Sink(hosts: set<string>, kinds: set<EventKind>, retryAfter: nat)

  /** A run of `deliver_next_event`: after reading the cursor, the event, and the grant. */
  datatype Task =
    | Looking(id: string, after: nat)
    | Found(id: string, after: nat, event: FleetEvent)
    | Sent(id: string, after: nat, event: FleetEvent)

  /** History: one granted attempt. */
  datatype Attempt = Attempt(id: string, sequence: nat, at: int)

  datatype Courier = Courier(feed: Feed, sinks: map<string, Sink>, tasks: set<Task>, attempts: seq<Attempt>)

  datatype Step =
    | Other(op: FeedOp)
    | Look(id: string)
    | Fetch(task: Task)
    | SkipEvent(task: Task)
    | Begin(task: Task, now: int)
    | Confirm(task: Task, stage: DeliveryStage)
    | Crash(kept: set<Task>)

  predicate Matches(sink: Sink, e: FleetEvent) {
    (sink.hosts == {} || e.key.host in sink.hosts) && (sink.kinds == {} || e.kind in sink.kinds)
  }

  predicate IsDeliveryOp(op: FeedOp) { op.DoBeginDelivery? || op.DoAcknowledge? || op.DoSkip? }

  function BeginNext(s: Courier, id: string, after: nat, e: FleetEvent, now: int): (r: Courier)
    requires id in s.sinks
  {
    var g := BeginDelivery(s.feed, id, e.sequence, s.sinks[id].retryAfter, now);
    if g.Err? || g.value.Denied? then s
    else s.(feed := g.value.feed,
            tasks := s.tasks + {Sent(id, after, e)},
            attempts := s.attempts + [Attempt(id, e.sequence, now)])
  }

  function Next(s: Courier, step: Step): (r: Courier) {
    match step
    case Other(op) => if IsDeliveryOp(op) then s else s.(feed := ApplyFeed(s.feed, op))
    case Look(id) =>
      if id in s.sinks && id in s.feed.cursors then s.(tasks := s.tasks + {Looking(id, s.feed.cursors[id])}) else s
    case Fetch(task) =>
      if task !in s.tasks || !task.Looking? || NextEvent(s.feed, task.after).None? then s
      else s.(tasks := s.tasks + {Found(task.id, task.after, NextEvent(s.feed, task.after).value)})
    case SkipEvent(task) =>
      if task !in s.tasks || !task.Found? || task.id !in s.sinks || Matches(s.sinks[task.id], task.event) then s
      else s.(feed := Advance(s.feed, task.id, task.event.sequence))
    case Begin(task, now) =>
      if task !in s.tasks || !task.Found? || task.id !in s.sinks || !Matches(s.sinks[task.id], task.event) then s
      else BeginNext(s, task.id, task.after, task.event, now)
    case Confirm(task, stage) =>
      if task !in s.tasks || !task.Sent? then s
      else s.(feed := Settle(s.feed, Acknowledge(s.feed, task.id, task.event.sequence, stage)))
    case Crash(kept) => s.(tasks := s.tasks * kept)
  }

  function RunSteps(s: Courier, steps: seq<Step>): (r: Courier)
    decreases |steps|
  {
    if steps == [] then s else RunSteps(Next(s, steps[0]), steps[1..])
  }

  predicate Initial(s: Courier) { s.feed == NO_EVENTS && s.tasks == {} && s.attempts == [] }

  // ---------------------------------------------------------------- the invariant

  predicate Sequenced(feed: Feed) {
    forall i :: 0 <= i < |feed.events| ==> feed.events[i].sequence == feed.pruned + i + 1
  }

  predicate Acked(feed: Feed, id: string, sequence: nat) {
    DeliveryKey(id, sequence) in feed.deliveries && feed.deliveries[DeliveryKey(id, sequence)].stage != StageQueued
  }

  /** Every retained matching event at or below `upTo` was acknowledged. */
  ghost predicate DeliveredUpTo(feed: Feed, id: string, sink: Sink, upTo: nat) {
    forall q: nat :: Retained(feed, q) && q <= upTo && Matches(sink, EventAt(feed, q)) ==> Acked(feed, id, q)
  }

  ghost predicate CursorSafe(s: Courier, id: string)
    requires id in s.feed.cursors
  {
    s.feed.cursors[id] <= Last(s.feed) && (id in s.sinks ==> DeliveredUpTo(s.feed, id, s.sinks[id], s.feed.cursors[id]))
  }

  predicate RowSafe(feed: Feed, k: DeliveryKey)
    requires k in feed.deliveries
  {
    && Retained(feed, k.sequence) && k.subscription in feed.cursors
    && (feed.deliveries[k].stage != StageQueued ==> k.sequence <= feed.cursors[k.subscription])
  }

  /** No retained event lies strictly between the cursor a task read and its event. */
  predicate TaskSafe(s: Courier, t: Task) {
    && t.id in s.sinks && t.id in s.feed.cursors && t.after <= s.feed.cursors[t.id]
    && (!t.Looking? ==>
          && t.after < t.event.sequence <= Last(s.feed)
          && (t.event.sequence <= t.after + 1 || t.event.sequence <= s.feed.pruned + 1)
          && (Retained(s.feed, t.event.sequence) ==> EventAt(s.feed, t.event.sequence) == t.event))
    && (t.Sent? ==> Matches(s.sinks[t.id], t.event))
  }

  /** The row of an attempted delivery still blocks attempts that come too early. */
  predicate AttemptSafe(s: Courier, a: Attempt) {
    var k := DeliveryKey(a.id, a.sequence);
    && a.id in s.sinks && a.sequence <= Last(s.feed)
    && (Retained(s.feed, a.sequence) ==>
          && k in s.feed.deliveries
          && (s.feed.deliveries[k].stage == StageQueued ==>
                s.feed.deliveries[k].retryAt.Some? && s.feed.deliveries[k].retryAt.value >= a.at + s.sinks[a.id].retryAfter))
  }

  predicate Spaced(s: Courier) {
    forall i, j :: 0 <= i < j < |s.attempts| && SameDelivery(s.attempts[i], s.attempts[j]) && s.attempts[i].id in s.sinks ==>
      s.attempts[j].at >= s.attempts[i].at + s.sinks[s.attempts[i].id].retryAfter
  }

  predicate SameDelivery(a: Attempt, b: Attempt) { a.id == b.id && a.sequence == b.sequence }

  ghost predicate Safe(s: Courier) {
    && Sequenced(s.feed)
    && (forall id :: id in s.feed.cursors ==> CursorSafe(s, id))
    && (forall k :: k in s.feed.deliveries ==> RowSafe(s.feed, k))
    && (forall t :: t in s.tasks ==> TaskSafe(s, t))
    && (forall i :: 0 <= i < |s.attempts| ==> AttemptSafe(s, s.attempts[i]))
    && Spaced(s)
  }

  // ---------------------------------------------------------------- feed transactions

  /** What a transaction outside delivery does to the delivery tables. */
  ghost predicate FeedGrows(feed: Feed, feed': Feed) {
    && feed.pruned <= feed'.pruned && Last(feed) <= Last(feed') && Sequenced(feed')
    && (forall q: nat :: Retained(feed', q) && q <= Last(feed) ==> Retained(feed, q) && EventAt(feed', q) == EventAt(feed, q))
    && (forall k :: k in feed'.deliveries <==> k in feed.deliveries && k.sequence > feed'.pruned)
    && (forall k :: k in feed'.deliveries ==> feed'.deliveries[k] == feed.deliveries[k])
    && (forall id :: id in feed.cursors ==> id in feed'.cursors && feed'.cursors[id] == feed.cursors[id])
    && (forall id :: id in feed'.cursors && id !in feed.cursors ==> feed'.cursors[id] == 0)
  }

  lemma OtherOpGrows(feed: Feed, op: FeedOp)
    requires Sequenced(feed) && !IsDeliveryOp(op) && forall k :: k in feed.deliveries ==> RowSafe(feed, k)
    ensures FeedGrows(feed, ApplyFeed(feed, op))
  {
    match op
    case DoPrune(sequence) => PruneGrows(feed, sequence);
    case DoEnsure(id) => EnsureGrows(feed, id);
    case DoIngest(key, firing) => IngestInserts(feed, key, firing);
    case DoDiagnose(key, about, job) => DiagnoseInserts(feed, key, about, job);
    case DoBegin(event, host, principal, job, m, c, now) => BeginInserts(feed, op);
    case DoFinish(claim, principal, expected, outcome, summary, related) => FinishInserts(feed, op);
  }

  lemma PruneGrows(feed: Feed, sequence: nat)
    requires Sequenced(feed) && forall k :: k in feed.deliveries ==> RowSafe(feed, k)
    ensures FeedGrows(feed, Settle(feed, Prune(feed, sequence)))
  {
    assert forall k :: k in feed.deliveries ==> k.sequence > feed.pruned;
  }

  lemma EnsureGrows(feed: Feed, id: string)
    requires Sequenced(feed) && forall k :: k in feed.deliveries ==> RowSafe(feed, k)
    ensures FeedGrows(feed, Settle(feed, EnsureSubscription(feed, id)))
  {
    assert forall k :: k in feed.deliveries ==> k.sequence > feed.pruned;
  }

  /** The delivery tables stay and at most one event is added, with the next sequence. */
  predicate Inserts(feed: Feed, feed': Feed) {
    && feed'.pruned == feed.pruned && feed'.deliveries == feed.deliveries && feed'.cursors == feed.cursors
    && (feed'.events == feed.events
        || (|feed'.events| == |feed.events| + 1 && feed.events <= feed'.events
            && feed'.events[|feed.events|].sequence == Last(feed) + 1))
  }

  lemma InsertGrows(feed: Feed, feed': Feed)
    requires Sequenced(feed) && (forall k :: k in feed.deliveries ==> RowSafe(feed, k)) && Inserts(feed, feed')
    ensures FeedGrows(feed, feed')
  {
    assert forall k :: k in feed.deliveries ==> k.sequence > feed.pruned;
  }

  lemma IngestInserts(feed: Feed, key: AlertKey, firing: bool)
    requires Sequenced(feed) && forall k :: k in feed.deliveries ==> RowSafe(feed, k)
    ensures FeedGrows(feed, Settle(feed, IngestAlert(feed, key, firing)))
  {
    InsertGrows(feed, Settle(feed, IngestAlert(feed, key, firing)));
  }

  lemma DiagnoseInserts(feed: Feed, key: AlertKey, about: Option<nat>, job: JobId)
    requires Sequenced(feed) && forall k :: k in feed.deliveries ==> RowSafe(feed, k)
    ensures FeedGrows(feed, Settle(feed, AppendDiagnostic(feed, key, about, job)))
  {
    InsertGrows(feed, Settle(feed, AppendDiagnostic(feed, key, about, job)));
  }

  lemma BeginInserts(feed: Feed, op: FeedOp)
    requires Sequenced(feed) && op.DoBegin? && forall k :: k in feed.deliveries ==> RowSafe(feed, k)
    ensures FeedGrows(feed, ApplyFeed(feed, op))
  {
    InsertGrows(feed, ApplyFeed(feed, op));
  }

  lemma FinishInserts(feed: Feed, op: FeedOp)
    requires Sequenced(feed) && op.DoFinish? && forall k :: k in feed.deliveries ==> RowSafe(feed, k)
    ensures FeedGrows(feed, ApplyFeed(feed, op))
  {
    InsertGrows(feed, ApplyFeed(feed, op));
  }

  lemma GrowthIsSafe(s: Courier, feed': Feed)
    requires Safe(s) && FeedGrows(s.feed, feed')
    ensures Safe(s.(feed := feed'))
  {
    var s' := s.(feed := feed');
    forall id | id in feed'.cursors ensures CursorSafe(s', id) {
      if id in s.feed.cursors {
        assert CursorSafe(s, id);
      }
    }
    forall k | k in feed'.deliveries ensures RowSafe(feed', k) {
      assert RowSafe(s.feed, k);
    }
    forall t | t in s'.tasks ensures TaskSafe(s', t) {
      assert TaskSafe(s, t);
    }
    forall i | 0 <= i < |s'.attempts| ensures AttemptSafe(s', s'.attempts[i]) {
      assert AttemptSafe(s, s.attempts[i]);
    }
  }

  // ---------------------------------------------------------------- moving a cursor

  /** Past the event of a task everything is delivered, once the event itself is. */
  lemma NothingBetween(s: Courier, t: Task, feed': Feed)
    requires TaskSafe(s, t) && !t.Looking? && CursorSafe(s, t.id)
    requires feed'.pruned == s.feed.pruned && feed'.events == s.feed.events
    requires forall q: nat :: Acked(s.feed, t.id, q) ==> Acked(feed', t.id, q)
    requires Acked(feed', t.id, t.event.sequence) || !Matches(s.sinks[t.id], t.event)
    ensures DeliveredUpTo(feed', t.id, s.sinks[t.id], t.event.sequence)
  {
    var sink := s.sinks[t.id];
    forall q: nat | Retained(feed', q) && q <= t.event.sequence && Matches(sink, EventAt(feed', q))
      ensures Acked(feed', t.id, q)
    {
      assert EventAt(feed', q) == EventAt(s.feed, q);
      if q != t.event.sequence {
        assert q <= t.after;
      }
    }
  }

  /** One cursor moved to `sequence`, and at most the row of that delivery was acknowledged. */
  ghost predicate CursorMoves(feed: Feed, feed': Feed, id: string, sequence: nat) {
    var k := DeliveryKey(id, sequence);
    && id in feed.cursors && feed'.pruned == feed.pruned && feed'.events == feed.events
    && feed'.cursors == feed.cursors[id := if feed.cursors[id] < sequence then sequence else feed.cursors[id]]
    && feed'.deliveries.Keys == feed.deliveries.Keys
    && (forall k' :: k' in feed.deliveries && k' != k ==> feed'.deliveries[k'] == feed.deliveries[k'])
    && (k in feed.deliveries ==> feed'.deliveries[k] == feed.deliveries[k] || feed'.deliveries[k].stage != StageQueued)
  }

  lemma CursorMoveIsSafe(s: Courier, feed': Feed, t: Task)
    requires Safe(s) && t in s.tasks && !t.Looking? && CursorMoves(s.feed, feed', t.id, t.event.sequence)
    requires Acked(feed', t.id, t.event.sequence) || !Matches(s.sinks[t.id], t.event)
    ensures Safe(s.(feed := feed'))
  {
    var s' := s.(feed := feed');
    assert TaskSafe(s, t) && CursorSafe(s, t.id);
    NothingBetween(s, t, feed');
    MoveKeepsTables(s, feed', t);
    forall u | u in s'.tasks ensures TaskSafe(s', u) {
      MoveKeepsTask(s, feed', u, t.id, t.event.sequence);
    }
    forall i | 0 <= i < |s'.attempts| ensures AttemptSafe(s', s'.attempts[i]) {
      MoveKeepsAttempt(s, feed', s.attempts[i], t.id, t.event.sequence);
    }
  }

  lemma MoveKeepsTables(s: Courier, feed': Feed, t: Task)
    requires forall id :: id in s.feed.cursors ==> CursorSafe(s, id)
    requires forall k :: k in s.feed.deliveries ==> RowSafe(s.feed, k)
    requires TaskSafe(s, t) && !t.Looking? && CursorMoves(s.feed, feed', t.id, t.event.sequence)
    requires DeliveredUpTo(feed', t.id, s.sinks[t.id], t.event.sequence)
    ensures forall id :: id in feed'.cursors ==> CursorSafe(s.(feed := feed'), id)
    ensures forall k :: k in feed'.deliveries ==> RowSafe(feed', k)
  {
    forall id | id in feed'.cursors ensures CursorSafe(s.(feed := feed'), id) {
      MoveKeepsCursor(s, feed', t, id);
    }
    forall k | k in feed'.deliveries ensures RowSafe(feed', k) {
      MoveKeepsRow(s.feed, feed', k, t.id, t.event.sequence);
    }
  }

  lemma MoveKeepsCursor(s: Courier, feed': Feed, t: Task, id: string)
    requires id in s.feed.cursors && CursorSafe(s, id) && TaskSafe(s, t) && !t.Looking?
    requires CursorMoves(s.feed, feed', t.id, t.event.sequence)
    requires DeliveredUpTo(feed', t.id, s.sinks[t.id], t.event.sequence)
    ensures CursorSafe(s.(feed := feed'), id)
  {
    if id in s.sinks {
      OthersStayDelivered(s, feed', id, t);
    }
  }

  lemma MoveKeepsRow(feed: Feed, feed': Feed, k: DeliveryKey, id: string, sequence: nat)
    requires k in feed.deliveries && RowSafe(feed, k) && CursorMoves(feed, feed', id, sequence)
    ensures RowSafe(feed', k)
  {
  }

  lemma MoveKeepsTask(s: Courier, feed': Feed, u: Task, id: string, sequence: nat)
    requires TaskSafe(s, u) && CursorMoves(s.feed, feed', id, sequence)
    ensures TaskSafe(s.(feed := feed'), u)
  {
  }

  lemma MoveKeepsAttempt(s: Courier, feed': Feed, a: Attempt, id: string, sequence: nat)
    requires AttemptSafe(s, a) && CursorMoves(s.feed, feed', id, sequence)
    ensures AttemptSafe(s.(feed := feed'), a)
  {
  }

  lemma OthersStayDelivered(s: Courier, feed': Feed, id: string, t: Task)
    requires id in s.feed.cursors && id in s.sinks && CursorSafe(s, id) && !t.Looking?
    requires CursorMoves(s.feed, feed', t.id, t.event.sequence)
    requires id == t.id ==> DeliveredUpTo(feed', id, s.sinks[id], t.event.sequence)
    ensures DeliveredUpTo(feed', id, s.sinks[id], feed'.cursors[id])
  {
    forall q: nat | Retained(feed', q) && q <= feed'.cursors[id] && Matches(s.sinks[id], EventAt(feed', q))
      ensures Acked(feed', id, q)
    {
      if q <= s.feed.cursors[id] {
        assert EventAt(feed', q) == EventAt(s.feed, q);
        assert Acked(s.feed, id, q);
      }
    }
  }

  lemma SkipIsSafe(s: Courier, task: Task)
    requires Safe(s)
    ensures Safe(Next(s, SkipEvent(task)))
  {
    if Next(s, SkipEvent(task)) != s {
      assert TaskSafe(s, task);
      CursorMoveIsSafe(s, Advance(s.feed, task.id, task.event.sequence), task);
    }
  }

  lemma ConfirmIsSafe(s: Courier, task: Task, stage: DeliveryStage)
    requires Safe(s)
    ensures Safe(Next(s, Confirm(task, stage)))
  {
    if task in s.tasks && task.Sent? {
      assert TaskSafe(s, task);
      var feed' := Acknowledge(s.feed, task.id, task.event.sequence, stage);
      if feed'.Ok? {
        CursorMoveIsSafe(s, feed'.value, task);
      }
    }
  }

  // ---------------------------------------------------------------- granting an attempt

  lemma BeginIsSafe(s: Courier, task: Task, now: int)
    requires Safe(s)
    ensures Safe(Next(s, Begin(task, now)))
  {
    var s' := Next(s, Begin(task, now));
    if s' != s {
      assert TaskSafe(s, task);
      GrantIsSafe(s, s', task.id, task.event.sequence, now);
      assert TaskSafe(s', Sent(task.id, task.after, task.event));
      forall t | t in s'.tasks ensures TaskSafe(s', t) {
        assert t in s.tasks ==> TaskSafe(s, t);
      }
    }
  }

  lemma GrantIsSafe(s: Courier, s': Courier, id: string, sequence: nat, now: int)
    requires Safe(s) && id in s.sinks && s'.sinks == s.sinks
    requires
      var g := BeginDelivery(s.feed, id, sequence, s.sinks[id].retryAfter, now);
      g.Ok? && g.value.Granted? && s'.feed == g.value.feed && s'.attempts == s.attempts + [Attempt(id, sequence, now)]
    ensures Sequenced(s'.feed) && (forall i :: i in s'.feed.cursors ==> CursorSafe(s', i))
    ensures forall k :: k in s'.feed.deliveries ==> RowSafe(s'.feed, k)
    ensures (forall i :: 0 <= i < |s'.attempts| ==> AttemptSafe(s', s'.attempts[i])) && Spaced(s')
  {
    forall i | i in s'.feed.cursors ensures CursorSafe(s', i) {
      assert CursorSafe(s, i);
      StillDelivered(s, s', id, sequence, i);
    }
    forall k | k in s'.feed.deliveries ensures RowSafe(s'.feed, k) {
      assert k in s.feed.deliveries ==> RowSafe(s.feed, k);
    }
    forall i | 0 <= i < |s.attempts| ensures AttemptSafe(s', s.attempts[i])
      ensures SameDelivery(s.attempts[i], Attempt(id, sequence, now)) ==> now >= s.attempts[i].at + s.sinks[id].retryAfter
    {
      assert AttemptSafe(s, s.attempts[i]);
    }
  }

  lemma StillDelivered(s: Courier, s': Courier, id: string, sequence: nat, i: string)
    requires s'.sinks == s.sinks && i in s.feed.cursors && CursorSafe(s, i)
    requires
      var k := DeliveryKey(id, sequence);
      && (k in s.feed.deliveries ==> s.feed.deliveries[k].stage == StageQueued)
      && k in s'.feed.deliveries && s'.feed == s.feed.(deliveries := s.feed.deliveries[k := s'.feed.deliveries[k]])
    ensures CursorSafe(s', i)
  {
    if i in s.sinks {
      forall q: nat | Retained(s'.feed, q) && q <= s.feed.cursors[i] && Matches(s.sinks[i], EventAt(s'.feed, q))
        ensures Acked(s'.feed, i, q)
      {
        assert EventAt(s'.feed, q) == EventAt(s.feed, q);
        assert Acked(s.feed, i, q);
      }
    }
  }

  // ---------------------------------------------------------------- every run

  lemma TasksAreSafe(s: Courier, step: Step)
    requires Safe(s) && (step.Look? || step.Fetch? || step.Crash?)
    ensures Safe(Next(s, step))
  {
    var s' := Next(s, step);
    forall t | t in s'.tasks ensures TaskSafe(s', t) {
      if t in s.tasks {
        assert TaskSafe(s, t);
      } else if step.Look? {
        assert CursorSafe(s, step.id);
      } else {
        assert TaskSafe(s, step.task);
      }
    }
    forall id | id in s'.feed.cursors ensures CursorSafe(s', id) {
      assert CursorSafe(s, id);
    }
    forall i | 0 <= i < |s'.attempts| ensures AttemptSafe(s', s'.attempts[i]) {
      assert AttemptSafe(s, s.attempts[i]);
    }
  }

  lemma NextIsSafe(s: Courier, step: Step)
    requires Safe(s)
    ensures Safe(Next(s, step))
  {
    match step
    case Other(op) =>
      if !IsDeliveryOp(op) {
        OtherOpGrows(s.feed, op);
        GrowthIsSafe(s, ApplyFeed(s.feed, op));
      }
    case SkipEvent(task) => SkipIsSafe(s, task);
    case Begin(task, now) => BeginIsSafe(s, task, now);
    case Confirm(task, stage) => ConfirmIsSafe(s, task, stage);
    case _ => TasksAreSafe(s, step);
  }

  lemma {:induction false} RunIsSafe(s: Courier, steps: seq<Step>)
    requires Safe(s)
    ensures Safe(RunSteps(s, steps)) && RunSteps(s, steps).sinks == s.sinks
    decreases |steps|
  {
    if steps != [] {
      NextIsSafe(s, steps[0]);
      RunIsSafe(Next(s, steps[0]), steps[1..]);
    }
  }

  /**
   In every reachable state each retained event at or below a cursor that matches
   the subscription was acknowledged, every acknowledged event is at or below the
   cursor, and attempts for one event are at least the retry delay apart.
   */
  lemma OrderedAtLeastOnce(s: Courier, steps: seq<Step>, id: string)
    requires Initial(s) && id in s.sinks && id in RunSteps(s, steps).feed.cursors
    ensures
      var end := RunSteps(s, steps);
      && DeliveredUpTo(end.feed, id, s.sinks[id], end.feed.cursors[id])
      && (forall q: nat :: Acked(end.feed, id, q) ==> q <= end.feed.cursors[id])
      && (forall i, j :: 0 <= i < j < |end.attempts| && SameDelivery(end.attempts[i], end.attempts[j]) ==>
            end.attempts[i].id == id ==> end.attempts[j].at >= end.attempts[i].at + s.sinks[id].retryAfter)
  {
    RunIsSafe(s, steps);
    var end := RunSteps(s, steps);
    assert CursorSafe(end, id);
    forall q: nat | Acked(end.feed, id, q) ensures q <= end.feed.cursors[id] {
      assert RowSafe(end.feed, DeliveryKey(id, q));
    }
  }

  /** Delivery never sticks: the next matching event is granted as soon as its retry time has come. */
  lemma NextEventIsGranted(s: Courier, steps: seq<Step>, id: string, now: int)
    requires Initial(s) && id in s.sinks && id in RunSteps(s, steps).feed.cursors
    requires
      var feed := RunSteps(s, steps).feed;
      NextEvent(feed, feed.cursors[id]).Some?
    ensures
      var feed := RunSteps(s, steps).feed;
      var e := NextEvent(feed, feed.cursors[id]).value;
      var k := DeliveryKey(id, e.sequence);
      var grant := BeginDelivery(feed, id, e.sequence, s.sinks[id].retryAfter, now);
      && e.sequence > feed.cursors[id]
      && (grant.Ok? && grant.value.Granted? <==>
            k in feed.deliveries && feed.deliveries[k].retryAt.Some? ==> feed.deliveries[k].retryAt.value <= now)
  {
    RunIsSafe(s, steps);
    var end := RunSteps(s, steps);
    var e := NextEvent(end.feed, end.feed.cursors[id]).value;
    if DeliveryKey(id, e.sequence) in end.feed.deliveries {
      assert RowSafe(end.feed, DeliveryKey(id, e.sequence));
    }
  }

  /** No step moves a cursor back or forgets an acknowledgement of a retained event. */
  lemma CursorsNeverGoBack(s: Courier, step: Step, id: string)
    requires Safe(s) && id in s.feed.cursors
    ensures id in Next(s, step).feed.cursors && s.feed.cursors[id] <= Next(s, step).feed.cursors[id]
    ensures forall q: nat :: Acked(s.feed, id, q) && Retained(Next(s, step).feed, q) ==> Acked(Next(s, step).feed, id, q)
  {
    if step.Other? {
      if !IsDeliveryOp(step.op) {
        OtherOpGrows(s.feed, step.op);
      }
    } else {
      DeliveryStepKeeps(s, step, id);
    }
  }

  lemma DeliveryStepKeeps(s: Courier, step: Step, id: string)
    requires !step.Other? && id in s.feed.cursors
    ensures id in Next(s, step).feed.cursors && s.feed.cursors[id] <= Next(s, step).feed.cursors[id]
    ensures forall q: nat :: Acked(s.feed, id, q) ==> Acked(Next(s, step).feed, id, q)
  {
  }

  lemma {:induction false} CursorsOnlyGrow(s: Courier, steps: seq<Step>, id: string)
    requires Safe(s) && id in s.feed.cursors
    ensures id in RunSteps(s, steps).feed.cursors && s.feed.cursors[id] <= RunSteps(s, steps).feed.cursors[id]
    decreases |steps|
  {
    if steps != [] {
      NextIsSafe(s, steps[0]);
      CursorsNeverGoBack(s, steps[0], id);
      CursorsOnlyGrow(Next(s, steps[0]), steps[1..], id);
    }
  }

  // ---------------------------------------------------------------- one round of deliver_next_event

  /** The event passes the filter and its attempt is granted, so it is sent. */
  predicate Sends(feed: Feed, id: string, sink: Sink, e: FleetEvent, now: int) {
    && Matches(sink, e)
    && (var grant := BeginDelivery(feed, id, e.sequence, sink.retryAfter, now); grant.Ok? && grant.value.Granted?)
  }

  /** The tables after one round, with the sink's answer if it gave one. */
  function RoundFeed(feed: Feed, id: string, sink: Sink, now: int, answer: Option<DeliveryStage>): (r: Feed) {
    var next := if id in feed.cursors then NextEvent(feed, feed.cursors[id]) else None;
    if next.None? then feed
    else if !Matches(sink, next.value) then Advance(feed, id, next.value.sequence)
    else
      var grant := BeginDelivery(feed, id, next.value.sequence, sink.retryAfter, now);
      if grant.Err? || grant.value.Denied? then feed
      else if answer.None? then grant.value.feed
      else Settle(grant.value.feed, Acknowledge(grant.value.feed, id, next.value.sequence, answer.value))
  }

  /** The steps that round takes. */
  function RoundSteps(s: Courier, id: string, now: int, answer: Option<DeliveryStage>): (steps: seq<Step>)
    requires id in s.sinks
  {
    var next := if id in s.feed.cursors then NextEvent(s.feed, s.feed.cursors[id]) else None;
    if next.None? then [Look(id)]
    else
      var after, e := s.feed.cursors[id], next.value;
      var grant := BeginDelivery(s.feed, id, e.sequence, s.sinks[id].retryAfter, now);
      var found := [Look(id), Fetch(Looking(id, after))];
      if !Matches(s.sinks[id], e) then found + [SkipEvent(Found(id, after, e))]
      else if answer.None? || grant.Err? || grant.value.Denied? then found + [Begin(Found(id, after, e), now)]
      else found + [Begin(Found(id, after, e), now), Confirm(Sent(id, after, e), answer.value)]
  }

  lemma {:induction false} RunAppend(s: Courier, a: seq<Step>, b: seq<Step>)
    ensures RunSteps(s, a + b) == RunSteps(RunSteps(s, a), b)
    decreases |a|
  {
    if a == [] {
      assert a + b == b;
    } else {
      assert (a + b)[1..] == a[1..] + b;
      RunAppend(Next(s, a[0]), a[1..], b);
    }
  }

  lemma RunOne(s: Courier, step: Step)
    ensures RunSteps(s, [step]) == Next(s, step)
  {
    assert [step][1..] == [];
  }

  lemma RunTwo(s: Courier, a: Step, b: Step)
    ensures RunSteps(s, [a, b]) == Next(Next(s, a), b)
  {
    assert [a, b] == [a] + [b];
    RunAppend(s, [a], [b]);
    RunOne(s, a);
    RunOne(Next(s, a), b);
  }

  /** Looking and fetching leave the tables alone and find the next event. */
  lemma RoundFinds(s: Courier, id: string)
    requires id in s.sinks && id in s.feed.cursors && NextEvent(s.feed, s.feed.cursors[id]).Some?
    ensures
      var after := s.feed.cursors[id];
      var end := RunSteps(s, [Look(id), Fetch(Looking(id, after))]);
      && end == s.(tasks := end.tasks) && Found(id, after, NextEvent(s.feed, after).value) in end.tasks
  {
    RunTwo(s, Look(id), Fetch(Looking(id, s.feed.cursors[id])));
  }

  /** A round performs exactly delivery steps, so the whole-run results cover it. */
  lemma RoundIsProtocol(s: Courier, id: string, now: int, answer: Option<DeliveryStage>)
    requires id in s.sinks
    ensures RunSteps(s, RoundSteps(s, id, now, answer)).feed == RoundFeed(s.feed, id, s.sinks[id], now, answer)
  {
    var next := if id in s.feed.cursors then NextEvent(s.feed, s.feed.cursors[id]) else None;
    if next.None? {
      RunOne(s, Look(id));
    } else {
      var after, e := s.feed.cursors[id], next.value;
      var found := [Look(id), Fetch(Looking(id, after))];
      var mid := RunSteps(s, found);
      RoundFinds(s, id);
      RunAppend(s, found, RoundSteps(s, id, now, answer)[2..]);
      assert RoundSteps(s, id, now, answer) == found + RoundSteps(s, id, now, answer)[2..];
      if Matches(s.sinks[id], e) {
        RoundSends(mid, id, after, e, now, answer);
      } else {
        RunOne(mid, SkipEvent(Found(id, after, e)));
      }
    }
  }

  lemma RoundSends(mid: Courier, id: string, after: nat, e: FleetEvent, now: int, answer: Option<DeliveryStage>)
    requires id in mid.sinks && Found(id, after, e) in mid.tasks && Matches(mid.sinks[id], e)
    ensures
      var grant := BeginDelivery(mid.feed, id, e.sequence, mid.sinks[id].retryAfter, now);
      var begun := RunSteps(mid, [Begin(Found(id, after, e), now)]);
      && begun.feed == (if grant.Err? || grant.value.Denied? then mid.feed else grant.value.feed)
      && (grant.Ok? && grant.value.Granted? && answer.Some? ==>
            RunSteps(mid, [Begin(Found(id, after, e), now), Confirm(Sent(id, after, e), answer.value)]).feed ==
              Settle(grant.value.feed, Acknowledge(grant.value.feed, id, e.sequence, answer.value)))
  {
    RunOne(mid, Begin(Found(id, after, e), now));
    if answer.Some? {
      RunTwo(mid, Begin(Found(id, after, e), now), Confirm(Sent(id, after, e), answer.value));
    }
  }

  /** After any run, a further round keeps every promise about the subscription. */
  lemma RoundIsOrdered(s: Courier, steps: seq<Step>, id: string, now: int, answer: Option<DeliveryStage>)
    requires Initial(s) && id in s.sinks && id in RunSteps(s, steps).feed.cursors
    ensures
      var feed := RoundFeed(RunSteps(s, steps).feed, id, s.sinks[id], now, answer);
      && id in feed.cursors && DeliveredUpTo(feed, id, s.sinks[id], feed.cursors[id])
      && (forall q: nat :: Acked(feed, id, q) ==> q <= feed.cursors[id])
  {
    RunIsSafe(s, steps);
    var mid := RunSteps(s, steps);
    var round := RoundSteps(mid, id, now, answer);
    RoundIsProtocol(mid, id, now, answer);
    RunAppend(s, steps, round);
    CursorsOnlyGrow(mid, round, id);
    OrderedAtLeastOnce(s, steps + round, id);
  }
}
