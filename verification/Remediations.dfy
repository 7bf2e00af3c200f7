/**
 Remediation claims under a fixed policy: one active claim per host and per
 episode, attempts numbered in order within the budget, starts at least the
 cooldown apart, and no claim whose event was pruned away.
 */
module Remediations {
  import opened Wrappers
  import opened Jobs
  import opened EventModel
  import opened Utf8

  // ---------------------------------------------------------------- claims keep their event

  predicate ClaimBacked(feed: Feed, r: Remediation) {
    Retained(feed, r.event) && EventAt(feed, r.event).episode == r.episode && EventAt(feed, r.event).key.host == r.host
  }

  predicate Backed(feed: Feed) {
    forall i :: 0 <= i < |feed.remediations| ==> ClaimBacked(feed, feed.remediations[i])
  }

  lemma BackedAfterInsert(feed: Feed, feed': Feed, e: FleetEvent)
    requires feed'.pruned == feed.pruned && feed'.events == feed.events + [e]
    ensures forall r :: ClaimBacked(feed, r) ==> ClaimBacked(feed', r)
  {
  }

  lemma ApplyKeepsBacked(feed: Feed, op: FeedOp)
    requires Backed(feed)
    ensures Backed(ApplyFeed(feed, op))
  {
    match op
    case DoPrune(sequence) => PruneKeepsBacked(feed, sequence);
    case DoBegin(event, host, principal, job, m, c, now) =>
      BeginKeepsBacked(feed, event, host, principal, job, m, c, now);
    case DoFinish(claim, principal, expected, outcome, summary, related) =>
      FinishKeepsBacked(feed, claim, principal, expected, outcome, summary, related);
    case DoIngest(key, firing) => IngestKeepsBacked(feed, key, firing);
    case DoDiagnose(key, about, job) => DiagnoseKeepsBacked(feed, key, about, job);
    case _ => DeliveryKeepsBacked(feed, op);
  }

  lemma BeginKeepsBacked(feed: Feed, event: nat, host: string, principal: string, job: JobId, m: nat, c: nat, now: int)
    requires Backed(feed)
    ensures
      var claim := BeginRemediation(feed, event, host, principal, job, m, c, now);
      claim.Ok? ==> Backed(claim.value.feed)
  {
    var claim := BeginRemediation(feed, event, host, principal, job, m, c, now);
    if claim.Ok? && claim.value.created {
      BackedAfterInsert(feed, claim.value.feed, claim.value.feed.events[|feed.events|]);
    }
  }

  lemma FinishKeepsBacked(feed: Feed, id: nat, principal: string, expected: nat, outcome: RemediationState, summary: string,
                          job: Option<JobId>)
    requires Backed(feed)
    ensures
      var done := FinishRemediation(feed, id, principal, expected, outcome, summary, job);
      done.Ok? ==> Backed(done.value)
  {
    var done := FinishRemediation(feed, id, principal, expected, outcome, summary, job);
    if done.Ok? {
      BackedAfterInsert(feed, done.value, done.value.events[|feed.events|]);
    }
  }

  /** Claims stay backed while events are only added. */
  lemma MoreEventsKeepBacked(feed: Feed, feed': Feed)
    requires Backed(feed) && feed'.remediations == feed.remediations && feed'.pruned == feed.pruned
    requires feed.events <= feed'.events
    ensures Backed(feed')
  {
    forall i | 0 <= i < |feed.remediations| ensures ClaimBacked(feed', feed.remediations[i]) {
      assert ClaimBacked(feed, feed.remediations[i]);
    }
  }

  lemma IngestKeepsBacked(feed: Feed, key: AlertKey, firing: bool)
    requires Backed(feed)
    ensures Backed(Settle(feed, IngestAlert(feed, key, firing)))
  {
    MoreEventsKeepBacked(feed, Settle(feed, IngestAlert(feed, key, firing)));
  }

  lemma DiagnoseKeepsBacked(feed: Feed, key: AlertKey, about: Option<nat>, job: JobId)
    requires Backed(feed)
    ensures Backed(Settle(feed, AppendDiagnostic(feed, key, about, job)))
  {
    MoreEventsKeepBacked(feed, Settle(feed, AppendDiagnostic(feed, key, about, job)));
  }

  lemma DeliveryKeepsBacked(feed: Feed, op: FeedOp)
    requires Backed(feed) && (op.DoEnsure? || op.DoBeginDelivery? || op.DoAcknowledge? || op.DoSkip?)
    ensures Backed(ApplyFeed(feed, op))
  {
    MoreEventsKeepBacked(feed, ApplyFeed(feed, op));
  }

  lemma PruneKeepsBacked(feed: Feed, sequence: nat)
    requires Backed(feed)
    ensures Backed(ApplyFeed(feed, DoPrune(sequence)))
  {
    var feed' := ApplyFeed(feed, DoPrune(sequence));
    if Prune(feed, sequence).Ok? {
      forall i | 0 <= i < |feed.remediations| ensures ClaimBacked(feed', feed.remediations[i]) {
        assert ClaimBacked(feed, feed.remediations[i]);
      }
    }
  }

  // ---------------------------------------------------------------- the claim table

  /** Rows `i` and `j`, in this order, respect exclusion and spacing. */
  predicate Compatible(a: Remediation, b: Remediation, cooldown: nat) {
    && (IsActiveRemediation(a) && IsActiveRemediation(b) ==> a.host != b.host && a.episode != b.episode)
    && (a.episode == b.episode ==> b.startedAt >= a.startedAt + cooldown)
  }

  predicate Budgeted(rs: seq<Remediation>, maxAttempts: nat, cooldown: nat) {
    && (forall i, j :: 0 <= i < j < |rs| ==> Compatible(rs[i], rs[j], cooldown))
    && (forall i :: 0 <= i < |rs| ==> rs[i].attempt == Count(rs[..i], rs[i].episode) + 1 <= maxAttempts)
  }

  lemma CountAppend(rs: seq<Remediation>, r: Remediation, episode: nat)
    ensures Count(rs + [r], episode) == Count(rs, episode) + if r.episode == episode then 1 else 0
  {
    assert (rs + [r])[..|rs|] == rs;
  }

  /** A claim added under the policy's checks. */
  lemma ClaimKeepsBudget(rs: seq<Remediation>, r: Remediation, maxAttempts: nat, cooldown: nat)
    requires Budgeted(rs, maxAttempts, cooldown)
    requires forall i :: 0 <= i < |rs| ==> Compatible(rs[i], r, cooldown)
    requires r.attempt == Count(rs, r.episode) + 1 <= maxAttempts
    ensures Budgeted(rs + [r], maxAttempts, cooldown)
  {
    var rs' := rs + [r];
    forall i | 0 <= i < |rs'| ensures rs'[i].attempt == Count(rs'[..i], rs'[i].episode) + 1 <= maxAttempts {
      assert i < |rs| ==> rs'[..i] == rs[..i];
      assert i == |rs| ==> rs'[..i] == rs;
    }
  }

  /** Closing a claim or editing its links touches neither number, episode nor start. */
  lemma {:induction false} EditKeepsCount(rs: seq<Remediation>, k: nat, r: Remediation, episode: nat)
    requires k < |rs| && r.episode == rs[k].episode
    ensures Count(rs[k := r], episode) == Count(rs, episode)
    decreases |rs|
  {
    var n := |rs| - 1;
    if k == n {
      assert rs[k := r][..n] == rs[..n];
    } else {
      EditKeepsCount(rs[..n], k, r, episode);
      assert rs[k := r][..n] == rs[..n][k := r];
    }
  }

  lemma EditKeepsBudget(rs: seq<Remediation>, k: nat, r: Remediation, maxAttempts: nat, cooldown: nat)
    requires Budgeted(rs, maxAttempts, cooldown) && k < |rs|
    requires !IsActiveRemediation(r) && r == rs[k].(state := r.state, revision := r.revision, job := r.job)
    ensures Budgeted(rs[k := r], maxAttempts, cooldown)
  {
    var rs' := rs[k := r];
    forall i, j | 0 <= i < j < |rs'| ensures Compatible(rs'[i], rs'[j], cooldown) {
      assert Compatible(rs[i], rs[j], cooldown);
    }
    forall i | 0 <= i < |rs'| ensures rs'[i].attempt == Count(rs'[..i], rs'[i].episode) + 1 <= maxAttempts {
      assert rs[i].attempt == Count(rs[..i], rs[i].episode) + 1;
      if k < i {
        assert rs'[..i] == rs[..i][k := r];
        EditKeepsCount(rs[..i], k, r, rs[i].episode);
      } else {
        assert rs'[..i] == rs[..i];
      }
    }
  }

  /** The operation uses the configured policy. */
  predicate UnderPolicy(op: FeedOp, maxAttempts: nat, cooldown: nat) {
    op.DoBegin? ==> op.maxAttempts == maxAttempts && op.cooldown == cooldown
  }

  lemma ApplyKeepsBudget(feed: Feed, op: FeedOp, maxAttempts: nat, cooldown: nat)
    requires Budgeted(feed.remediations, maxAttempts, cooldown) && UnderPolicy(op, maxAttempts, cooldown)
    ensures Budgeted(ApplyFeed(feed, op).remediations, maxAttempts, cooldown)
  {
    match op
    case DoBegin(event, host, principal, job, m, c, now) => BeginKeepsBudget(feed, op);
    case DoFinish(claim, principal, expected, outcome, summary, related) => FinishKeepsBudget(feed, op, maxAttempts, cooldown);
    case _ => ClaimsUntouched(feed, op);
  }

  lemma BeginKeepsBudget(feed: Feed, op: FeedOp)
    requires op.DoBegin? && Budgeted(feed.remediations, op.maxAttempts, op.cooldown)
    ensures Budgeted(ApplyFeed(feed, op).remediations, op.maxAttempts, op.cooldown)
  {
    var c := BeginRemediation(feed, op.event, op.host, op.principal, op.job, op.maxAttempts, op.cooldown, op.now);
    if c.Ok? && c.value.created {
      NewClaimFacts(feed, op);
      ClaimKeepsBudget(feed.remediations, c.value.feed.remediations[c.value.id], op.maxAttempts, op.cooldown);
    }
  }

  lemma NewClaimFacts(feed: Feed, op: FeedOp)
    requires op.DoBegin?
    requires
      var c := BeginRemediation(feed, op.event, op.host, op.principal, op.job, op.maxAttempts, op.cooldown, op.now);
      c.Ok? && c.value.created
    ensures
      var c := BeginRemediation(feed, op.event, op.host, op.principal, op.job, op.maxAttempts, op.cooldown, op.now).value;
      var rs := feed.remediations;
      && c.id == |rs| && |c.feed.remediations| == |rs| + 1 && c.feed.remediations == rs + [c.feed.remediations[c.id]]
      && (forall i :: 0 <= i < |rs| ==> Compatible(rs[i], c.feed.remediations[c.id], op.cooldown))
      && c.feed.remediations[c.id].attempt == Count(rs, c.feed.remediations[c.id].episode) + 1 <= op.maxAttempts
  {
  }

  lemma FinishKeepsBudget(feed: Feed, op: FeedOp, maxAttempts: nat, cooldown: nat)
    requires op.DoFinish? && Budgeted(feed.remediations, maxAttempts, cooldown)
    ensures Budgeted(ApplyFeed(feed, op).remediations, maxAttempts, cooldown)
  {
    if FinishRemediation(feed, op.claim, op.principal, op.expected, op.outcome, op.summary, op.related).Ok? {
      EditKeepsBudget(feed.remediations, op.claim, ApplyFeed(feed, op).remediations[op.claim], maxAttempts, cooldown);
    }
  }

  lemma ClaimsUntouched(feed: Feed, op: FeedOp)
    requires !op.DoBegin? && !op.DoFinish?
    ensures ApplyFeed(feed, op).remediations == feed.remediations
  {
  }

  lemma {:induction false} RunKeepsBudget(feed: Feed, ops: seq<FeedOp>, maxAttempts: nat, cooldown: nat)
    requires Backed(feed) && Budgeted(feed.remediations, maxAttempts, cooldown)
    requires forall i :: 0 <= i < |ops| ==> UnderPolicy(ops[i], maxAttempts, cooldown)
    ensures Backed(RunFeed(feed, ops)) && Budgeted(RunFeed(feed, ops).remediations, maxAttempts, cooldown)
    decreases |ops|
  {
    if ops != [] {
      ApplyKeepsBacked(feed, ops[0]);
      ApplyKeepsBudget(feed, ops[0], maxAttempts, cooldown);
      RunKeepsBudget(ApplyFeed(feed, ops[0]), ops[1..], maxAttempts, cooldown);
    }
  }

  // ---------------------------------------------------------------- numbering

  lemma {:induction false} CountGrows(rs: seq<Remediation>, i: nat, j: nat, episode: nat)
    requires i <= j <= |rs|
    ensures Count(rs[..i], episode) <= Count(rs[..j], episode)
    decreases j
  {
    if i < j {
      CountGrows(rs, i, j - 1, episode);
      assert rs[..j] == rs[..j - 1] + [rs[j - 1]];
      CountAppend(rs[..j - 1], rs[j - 1], episode);
    }
  }

  lemma CountNext(rs: seq<Remediation>, n: nat, episode: nat)
    requires n < |rs|
    ensures Count(rs[..n + 1], episode) == Count(rs[..n], episode) + if rs[n].episode == episode then 1 else 0
  {
    assert rs[..n + 1] == rs[..n] + [rs[n]];
    CountAppend(rs[..n], rs[n], episode);
  }

  /** Every number from 1 to the count was given to some claim of the episode. */
  lemma {:induction false} NumberIsUsed(rs: seq<Remediation>, n: nat, episode: nat, a: nat) returns (i: nat)
    requires n <= |rs| && 1 <= a <= Count(rs[..n], episode)
    requires Numbered(rs)
    ensures i < n && rs[i].episode == episode && rs[i].attempt == a
    decreases n
  {
    CountNext(rs, n - 1, episode);
    if a <= Count(rs[..n - 1], episode) {
      i := NumberIsUsed(rs, n - 1, episode, a);
    } else {
      i := n - 1;
    }
  }

  /**
   Over every run with a fixed policy: at most one active claim per host and per
   episode, attempts of an episode are exactly 1..n in order with n within the
   budget, and consecutive starts are at least the cooldown apart.
   */
  lemma RemediationBudget(ops: seq<FeedOp>, maxAttempts: nat, cooldown: nat, episode: nat)
    requires forall i :: 0 <= i < |ops| ==> UnderPolicy(ops[i], maxAttempts, cooldown)
    ensures
      var rs := RunFeed(NO_EVENTS, ops).remediations;
      && (forall i, j :: 0 <= i < j < |rs| && IsActiveRemediation(rs[i]) && IsActiveRemediation(rs[j]) ==>
            rs[i].host != rs[j].host && rs[i].episode != rs[j].episode)
      && Count(rs, episode) <= maxAttempts
      && (forall i :: 0 <= i < |rs| && rs[i].episode == episode ==> 1 <= rs[i].attempt <= Count(rs, episode))
      && (forall i, j :: 0 <= i < j < |rs| && rs[i].episode == rs[j].episode ==>
            rs[i].attempt < rs[j].attempt && rs[j].startedAt >= rs[i].startedAt + cooldown)
      && (forall a :: 1 <= a <= Count(rs, episode) ==> HasAttempt(rs, episode, a))
  {
    var rs := RunFeed(NO_EVENTS, ops).remediations;
    RunKeepsBudget(NO_EVENTS, ops, maxAttempts, cooldown);
    forall i, j | 0 <= i < j < |rs| ensures Compatible(rs[i], rs[j], cooldown) {}
    forall i, j | 0 <= i < j < |rs| && rs[i].episode == rs[j].episode ensures rs[i].attempt < rs[j].attempt {
      NumberIsOrdinal(rs, i, rs[i].episode);
      CountGrows(rs, i + 1, j, rs[i].episode);
    }
    NumbersAreUsed(rs, maxAttempts, cooldown, episode);
  }

  predicate Numbered(rs: seq<Remediation>) {
    forall k :: 0 <= k < |rs| ==> rs[k].attempt == Count(rs[..k], rs[k].episode) + 1
  }

  lemma NumberIsOrdinal(rs: seq<Remediation>, i: nat, episode: nat)
    requires Numbered(rs) && i < |rs| && rs[i].episode == episode
    ensures rs[i].attempt == Count(rs[..i + 1], episode) <= Count(rs, episode)
  {
    assert rs[..i + 1] == rs[..i] + [rs[i]];
    CountAppend(rs[..i], rs[i], episode);
    CountGrows(rs, i + 1, |rs|, episode);
    assert rs[..|rs|] == rs;
  }

  lemma NumbersAreUsed(rs: seq<Remediation>, maxAttempts: nat, cooldown: nat, episode: nat)
    requires Budgeted(rs, maxAttempts, cooldown)
    ensures Count(rs, episode) <= maxAttempts
    ensures forall i :: 0 <= i < |rs| && rs[i].episode == episode ==> 1 <= rs[i].attempt <= Count(rs, episode)
    ensures forall a :: 1 <= a <= Count(rs, episode) ==> HasAttempt(rs, episode, a)
  {
    assert Numbered(rs);
    assert rs[..|rs|] == rs;
    forall i | 0 <= i < |rs| && rs[i].episode == episode ensures 1 <= rs[i].attempt <= Count(rs, episode) {
      NumberIsOrdinal(rs, i, episode);
    }
    forall a | 1 <= a <= Count(rs, episode) ensures HasAttempt(rs, episode, a) {
      var i := NumberIsUsed(rs, |rs|, episode, a);
    }
    if Count(rs, episode) > 0 {
      var last := NumberIsUsed(rs, |rs|, episode, Count(rs, episode));
    }
  }

  predicate HasAttempt(rs: seq<Remediation>, episode: nat, a: nat) {
    exists i :: 0 <= i < |rs| && rs[i].episode == episode && rs[i].attempt == a
  }

  // ---------------------------------------------------------------- repeated claims

  /** The claim still carries its job, and no earlier claim of the principal was given that job. */
  predicate ClaimStands(rs: seq<Remediation>, id: nat, job: JobId, principal: string) {
    && id < |rs| && rs[id].job == Some(job) && rs[id].principal == principal
    && forall i :: 0 <= i < id ==> rs[i].job != Some(job) || rs[i].principal != principal
  }

  lemma {:induction false} FindsStandingClaim(rs: seq<Remediation>, id: nat, job: JobId, principal: string)
    ensures FindClaim(rs, job, principal) == Some(id) <==> ClaimStands(rs, id, job, principal)
    decreases |rs|
  {
    if rs != [] && !(rs[0].job == Some(job) && rs[0].principal == principal) && id > 0 {
      FindsStandingClaim(rs[1..], id - 1, job, principal);
      assert forall i :: 0 <= i < |rs| - 1 ==> rs[1..][i] == rs[i + 1];
      if ClaimStands(rs[1..], id - 1, job, principal) {
        forall i | 0 <= i < id ensures rs[i].job != Some(job) || rs[i].principal != principal {
          assert i > 0 ==> rs[i] == rs[1..][i - 1];
        }
      }
    }
  }

  /** A finish that neither takes the job off the claim nor gives it to an earlier one. */
  predicate LeavesClaim(op: FeedOp, id: nat, job: JobId, principal: string) {
    op.DoFinish? ==>
      && (op.claim == id ==> op.related == Some(job))
      && (op.claim < id && op.principal == principal ==> op.related != Some(job))
  }

  lemma OpLeavesClaim(feed: Feed, op: FeedOp, id: nat, job: JobId, principal: string)
    requires ClaimStands(feed.remediations, id, job, principal) && LeavesClaim(op, id, job, principal)
    ensures ClaimStands(ApplyFeed(feed, op).remediations, id, job, principal)
  {
    match op
    case DoBegin(event, host, p, j, m, c, now) => BeginAppends(feed, op);
    case DoFinish(claim, p, expected, outcome, summary, related) => FinishEdits(feed, op);
    case _ => ClaimsUntouched(feed, op);
  }

  lemma BeginAppends(feed: Feed, op: FeedOp)
    requires op.DoBegin?
    ensures feed.remediations <= ApplyFeed(feed, op).remediations
  {
  }

  lemma FinishEdits(feed: Feed, op: FeedOp)
    requires op.DoFinish?
    ensures
      var rs, rs' := feed.remediations, ApplyFeed(feed, op).remediations;
      || rs' == rs
      || (&& op.claim < |rs| && rs[op.claim].principal == op.principal && |rs'| == |rs|
          && rs' == rs[op.claim := rs'[op.claim]] && rs'[op.claim].principal == op.principal
          && rs'[op.claim].job == op.related)
  {
  }

  lemma {:induction false} RunLeavesClaim(feed: Feed, ops: seq<FeedOp>, id: nat, job: JobId, principal: string)
    requires ClaimStands(feed.remediations, id, job, principal)
    requires forall i :: 0 <= i < |ops| ==> LeavesClaim(ops[i], id, job, principal)
    ensures ClaimStands(RunFeed(feed, ops).remediations, id, job, principal)
    decreases |ops|
  {
    if ops != [] {
      OpLeavesClaim(feed, ops[0], id, job, principal);
      RunLeavesClaim(ApplyFeed(feed, ops[0]), ops[1..], id, job, principal);
    }
  }

  /** A repeat returns an earlier claim unchanged exactly when that claim still stands. */
  lemma RepeatReturnsExactly(feed: Feed, id: nat, event: nat, host: string, principal: string, job: JobId, m: nat, c: nat,
                             now: int)
    requires m > 0
    ensures BeginRemediation(feed, event, host, principal, job, m, c, now) == Ok(Claim(feed, id, false)) <==>
            ClaimStands(feed.remediations, id, job, principal)
  {
    FindsStandingClaim(feed.remediations, id, job, principal);
  }

  /**
   Whatever happens between two claims by one job and principal, the second
   returns the first claim and changes nothing, as long as no finish takes the
   job off that claim or gives it to an earlier claim of the principal.
   */
  lemma ClaimIsIdempotent(feed: Feed, event: nat, host: string, principal: string, job: JobId, m: nat, c: nat, now: int,
                          ops: seq<FeedOp>, event': nat, host': string, now': int)
    requires
      var first := BeginRemediation(feed, event, host, principal, job, m, c, now);
      && first.Ok? && first.value.created
      && forall i :: 0 <= i < |ops| ==> LeavesClaim(ops[i], first.value.id, job, principal)
    ensures
      var first := BeginRemediation(feed, event, host, principal, job, m, c, now).value;
      var later := RunFeed(first.feed, ops);
      BeginRemediation(later, event', host', principal, job, m, c, now') == Ok(Claim(later, first.id, false))
  {
    var first := BeginRemediation(feed, event, host, principal, job, m, c, now).value;
    var rs := feed.remediations;
    assert first.feed.remediations[..|rs|] == rs;
    assert ClaimStands(first.feed.remediations, first.id, job, principal);
    RunLeavesClaim(first.feed, ops, first.id, job, principal);
    RepeatReturnsExactly(RunFeed(first.feed, ops), first.id, event', host', principal, job, m, c, now');
  }

  /** Finishing a claim without its job makes the next claim of that job a new one, or a refusal. */
  lemma FinishedClaimIsForgotten(feed: Feed, id: nat, principal: string, job: JobId, outcome: RemediationState, summary: string,
                                 event: nat, host: string, m: nat, c: nat, now: int)
    requires ClaimStands(feed.remediations, id, job, principal) && m > 0
    requires FinishRemediation(feed, id, principal, feed.remediations[id].revision, outcome, summary, None).Ok?
    ensures
      var done := FinishRemediation(feed, id, principal, feed.remediations[id].revision, outcome, summary, None).value;
      BeginRemediation(done, event, host, principal, job, m, c, now) != Ok(Claim(done, id, false))
  {
    var done := FinishRemediation(feed, id, principal, feed.remediations[id].revision, outcome, summary, None).value;
    assert !ClaimStands(done.remediations, id, job, principal);
    RepeatReturnsExactly(done, id, event, host, principal, job, m, c, now);
  }

  /** In every reachable store an active claim can be finished: its event is never pruned away. */
  lemma ActiveClaimCanFinish(ops: seq<FeedOp>, id: nat, outcome: RemediationState, summary: string, job: Option<JobId>)
    requires id < |RunFeed(NO_EVENTS, ops).remediations| && IsActiveRemediation(RunFeed(NO_EVENTS, ops).remediations[id])
    requires outcome != RemediationActive && Bounded(summary, 1024)
    ensures
      var feed := RunFeed(NO_EVENTS, ops);
      var claim := feed.remediations[id];
      FinishRemediation(feed, id, claim.principal, claim.revision, outcome, summary, job).Ok?
  {
    RunKeepsBacked(NO_EVENTS, ops);
    var feed := RunFeed(NO_EVENTS, ops);
    assert ClaimBacked(feed, feed.remediations[id]);
  }

  lemma {:induction false} RunKeepsBacked(feed: Feed, ops: seq<FeedOp>)
    requires Backed(feed)
    ensures Backed(RunFeed(feed, ops))
    decreases |ops|
  {
    if ops != [] {
      ApplyKeepsBacked(feed, ops[0]);
      RunKeepsBacked(ApplyFeed(feed, ops[0]), ops[1..]);
    }
  }
}
