/**
 The target-local deployment runner.  An outside writer may change the host
 between any two of its steps, so every claim is about what the runner saw and
 did, kept in a ghost trace: a write is justified by the last observation
 before it, and a report by the observations that led to it.
 */
module Runner {
  import opened Wrappers
  import opened Changes
  import Pipeline

  datatype RunnerSpec = RunnerSpec(plan: Plan, artifact: Option<Artifact>, automaticRollback: bool, verifyAttempts: nat)

  datatype RunnerError =
    | ArtifactRequired | ArtifactUnavailable | NoRestorableBaseline | LockDigestChanged | DerivationChanged | CommandFailed

  datatype Ended = Ended(report: DeploymentReport, code: nat)

  /** What the runner reads from the host and does to it. */
  datatype HostEvent =
    | Saw(running: Option<string>, profile: Option<string>)
    | SawBoot(bootId: Option<string>)
    | SawGeneration(generation: Option<nat>)
    | SetProfile(path: string, done: bool)
    | RanActivation(path: string, done: bool)
    | Checked(passed: bool)

  // ---------------------------------------------------------------- pure checks

  predicate OptionalMatches(expected: Option<string>, observed: Option<string>) {
    expected.Some? ==> observed == expected
  }

  predicate IsIntended(artifact: Artifact, running: Option<string>, profile: Option<string>) {
    running == Some(artifact.outPath) && profile == Some(artifact.outPath)
  }

  predicate IsOwned(artifact: Artifact, baselineRunning: Option<string>, running: Option<string>, profile: Option<string>) {
    profile == Some(artifact.outPath) && (running == Some(artifact.outPath) || running == baselineRunning)
  }

  const STORE: string := "/nix/store/"

  predicate IsStorePath(path: string) {
    STORE <= path && '\n' !in path && '\r' !in path
  }

  /** The path a recovery writes, if the plan froze any. */
  function RestorePath(plan: Plan): (path: Option<string>) {
    if plan.baseline.persistentProfile.Some? then plan.baseline.persistentProfile else plan.baseline.runningClosure
  }

  function ExitCode(status: ReportStatus): (code: nat) {
    match status
    case ReportStale => 20
    case ReportSuperseded => 21
    case ReportFailed => 22
    case ReportRecoveryFailed => 23
    case ReportRolledBack => 24
    case _ => 0
  }

  function ObservedReport(action: DeploymentAction, status: ReportStatus, running: Option<string>, profile: Option<string>)
    : (e: Ended)
  {
    Ended(DeploymentReport(action, status, None, None, None, running, profile), ExitCode(status))
  }

  // ---------------------------------------------------------------- prepare and build

  /** The outputs of the read-only commands; None stands for a failed command. */
  function PrepareReport(lock: Option<string>, drv: Option<string>): (r: Result<Ended, RunnerError>)
    ensures r.Ok? ==>
      && Pipeline.Emitted(r.value.report) && r.value.report.action == Prepare
      && r.value.report.drvPath == drv && r.value.report.lockDigest == lock && r.value.code == 0
      && "/nix/store/" <= drv.value && '\n' !in drv.value && '\r' !in drv.value
    ensures r.Ok? <==> lock.Some? && drv.Some? && IsStorePath(drv.value)
    ensures r.Err? ==> r.error == CommandFailed
  {
    if lock.None? || drv.None? || !IsStorePath(drv.value) then Err(CommandFailed)
    else Ok(Ended(DeploymentReport(Prepare, ReportPrepared, drv, None, lock, None, None), 0))
  }

  /** A build is reported only for exactly the derivation and lock digest that were prepared. */
  function BuildReport(plan: Plan, lock: Option<string>, out: Option<string>, drv: Option<string>)
    : (r: Result<Ended, RunnerError>)
    ensures r.Ok? ==>
      && Pipeline.Emitted(r.value.report) && r.value.report.action == Build
      && r.value.report.drvPath == plan.drvPath && r.value.report.lockDigest == plan.lockDigest
      && r.value.report.outPath == out && r.value.code == 0
    ensures r.Ok? <==>
      lock.Some? && lock == plan.lockDigest && drv.Some? && drv == plan.drvPath && IsStorePath(drv.value)
      && out.Some? && IsStorePath(out.value)
    ensures r == Err(LockDigestChanged) <==> lock.Some? && lock != plan.lockDigest
    ensures r == Err(DerivationChanged) <==>
      lock.Some? && lock == plan.lockDigest && out.Some? && IsStorePath(out.value) && drv.Some? && IsStorePath(drv.value)
      && drv != plan.drvPath
    ensures r.Err? ==> r.error == CommandFailed || r.error == LockDigestChanged || r.error == DerivationChanged
  {
    if lock.None? then Err(CommandFailed)
    else if plan.lockDigest != lock then Err(LockDigestChanged)
    else if out.None? || !IsStorePath(out.value) || drv.None? || !IsStorePath(drv.value) then Err(CommandFailed)
    else if plan.drvPath != drv then Err(DerivationChanged)
    else Ok(Ended(DeploymentReport(Build, ReportBuilt, drv, out, lock, None, None), 0))
  }

  // ---------------------------------------------------------------- traces

  predicate Writes(e: HostEvent) { e.SetProfile? || e.RanActivation? }

  predicate ReadOnly(t: seq<HostEvent>) { forall i :: 0 <= i < |t| ==> !Writes(t[i]) }

  /** The last observation of the two runtime links. */
  function LastSaw(t: seq<HostEvent>): (e: Option<HostEvent>)
    ensures e.Some? ==> e.value.Saw? && e.value in t
    decreases |t|
  {
    if t == [] then None
    else if t[|t| - 1].Saw? then Some(t[|t| - 1])
    else LastSaw(t[..|t| - 1])
  }

  /** The trace ends in an observation of the frozen baseline, boot included. */
  predicate EndsAtBaseline(plan: Plan, t: seq<HostEvent>) {
    var saw := LastSaw(t);
    && saw.Some?
    && (plan.baseline.runningClosure.Some? ==> saw.value.running == plan.baseline.runningClosure)
    && (plan.baseline.persistentProfile.Some? ==> saw.value.profile == plan.baseline.persistentProfile)
    && (plan.baseline.bootId.Some? ==> SawBoot(plan.baseline.bootId) in t)
  }

  /** The trace ends in an observation that the host is still on this change. */
  predicate EndsOwned(plan: Plan, artifact: Artifact, t: seq<HostEvent>) {
    var saw := LastSaw(t);
    saw.Some? && IsOwned(artifact, plan.baseline.runningClosure, saw.value.running, saw.value.profile)
  }

  predicate MayRestore(plan: Plan, artifact: Artifact, before: seq<HostEvent>, path: string) {
    Some(path) == RestorePath(plan) && EndsOwned(plan, artifact, before)
  }

  predicate MayActivate(plan: Plan, artifact: Artifact, before: seq<HostEvent>, path: string) {
    && path == artifact.outPath && ReadOnly(before) && EndsAtBaseline(plan, before)
    && (plan.baseline.generation.Some? ==> SawGeneration(plan.baseline.generation) in before)
  }

  /** Every profile write restores an owned host; an activation program runs only on the profile just set. */
  predicate Restoring(plan: Plan, artifact: Artifact, t: seq<HostEvent>) {
    && (forall i :: 0 <= i < |t| && t[i].SetProfile? ==> MayRestore(plan, artifact, t[..i], t[i].path))
    && (forall i :: 0 <= i < |t| && t[i].RanActivation? ==> i > 0 && t[i - 1] == SetProfile(t[i].path, true))
  }

  /** As `Restoring`, but the artifact itself may be written first, onto the untouched baseline. */
  predicate Guarded(plan: Plan, artifact: Artifact, t: seq<HostEvent>) {
    && (forall i :: 0 <= i < |t| && t[i].SetProfile? ==>
          MayActivate(plan, artifact, t[..i], t[i].path) || MayRestore(plan, artifact, t[..i], t[i].path))
    && (forall i :: 0 <= i < |t| && t[i].RanActivation? ==> i > 0 && t[i - 1] == SetProfile(t[i].path, true))
  }

  /** The artifact was seen running and persistent, and the checks passed right after. */
  predicate Accepted(artifact: Artifact, t: seq<HostEvent>) {
    exists i :: 0 <= i < |t| - 1 && AcceptedAt(artifact, t, i)
  }

  predicate AcceptedAt(artifact: Artifact, t: seq<HostEvent>, i: nat)
    requires i < |t| - 1
  {
    t[i] == Saw(Some(artifact.outPath), Some(artifact.outPath)) && t[i + 1] == Checked(true)
  }

  /** The report carries the last observation of the trace. */
  predicate ReportsLast(report: DeploymentReport, t: seq<HostEvent>) {
    LastSaw(t) == Some(Saw(report.observedRunning, report.observedProfile))
  }

  lemma {:induction false} LastSawAppend(a: seq<HostEvent>, b: seq<HostEvent>)
    ensures LastSaw(a + b) == if LastSaw(b).Some? then LastSaw(b) else LastSaw(a)
    decreases |b|
  {
    if b == [] {
      assert a + b == a;
    } else if !b[|b| - 1].Saw? {
      LastSawAppend(a, b[..|b| - 1]);
      assert (a + b)[..|a + b| - 1] == a + b[..|b| - 1];
    }
  }

  lemma LastSawOf(t: seq<HostEvent>, e: HostEvent)
    ensures LastSaw(t + [e]) == if e.Saw? then Some(e) else LastSaw(t)
  {
    assert (t + [e])[..|t|] == t;
  }

  /** A recovery that follows a guarded prefix keeps the whole trace guarded. */
  lemma GuardedThenRestoring(plan: Plan, artifact: Artifact, a: seq<HostEvent>, b: seq<HostEvent>)
    requires Guarded(plan, artifact, a) && Restoring(plan, artifact, b)
    ensures Guarded(plan, artifact, a + b)
  {
    var t := a + b;
    forall i | 0 <= i < |t| && t[i].SetProfile?
      ensures MayActivate(plan, artifact, t[..i], t[i].path) || MayRestore(plan, artifact, t[..i], t[i].path)
    {
      if i < |a| {
        assert t[..i] == a[..i];
      } else {
        assert MayRestore(plan, artifact, b[..i - |a|], b[i - |a|].path);
        assert t[..i] == a + b[..i - |a|];
        LastSawAppend(a, b[..i - |a|]);
      }
    }
    forall i | 0 <= i < |t| && t[i].RanActivation? ensures i > 0 && t[i - 1] == SetProfile(t[i].path, true) {
      if i >= |a| {
        assert b[i - |a|].RanActivation?;
      }
    }
  }

  /** What a report of any stage promises about the trace that produced it. */
  ghost predicate Honest(action: DeploymentAction, plan: Plan, artifact: Artifact, e: Ended, t: seq<HostEvent>) {
    && Pipeline.Emitted(e.report) && e.report.action == action && e.code == ExitCode(e.report.status)
    && ReportsLast(e.report, t)
    && (e.report.status == ReportStale ==> ReadOnly(t))
    && (e.report.status == ReportSuperseded ==>
          !EndsOwned(plan, artifact, t) && (action == Verify || action == Rollback ==> ReadOnly(t)))
    && (e.report.status == ReportFailed && action == Verify ==> ReadOnly(t))
    && (e.report.status == ReportVerified ==> ReadOnly(t) && Accepted(artifact, t))
    && (e.report.status == ReportActivated ==> AcceptedAfter(artifact, t))
    && (e.report.status == ReportRolledBack ==> RestoredAfter(plan, t))
  }

  /**
   A rolled-back report shows the frozen profile if the plan froze one, otherwise
   the frozen closure, and that path is the one activated last.
   */
  lemma RolledBackShowsBaseline(action: DeploymentAction, plan: Plan, artifact: Artifact, e: Ended, t: seq<HostEvent>)
    requires Honest(action, plan, artifact, e, t) && e.report.status == ReportRolledBack
    ensures plan.baseline.persistentProfile.Some? ==>
      && e.report.observedProfile == plan.baseline.persistentProfile
      && RanActivation(plan.baseline.persistentProfile.value, true) in t
    ensures plan.baseline.persistentProfile.None? ==>
      && plan.baseline.runningClosure.Some? && e.report.observedRunning == plan.baseline.runningClosure
      && RanActivation(plan.baseline.runningClosure.value, true) in t
  {
    var path := RestorePath(plan).value;
    var before, tail :| Splits(t, before, path, tail) && EndsAtBaseline(plan, tail);
    LastSawAppend(before + [RanActivation(path, true)], tail);
    assert t[|before|] == RanActivation(path, true);
  }

  /** The exit code of an honest ending tells an attained goal from each of the five others. */
  lemma CodeTellsEnding(action: DeploymentAction, plan: Plan, artifact: Artifact, e: Ended, t: seq<HostEvent>)
    requires Honest(action, plan, artifact, e, t)
    ensures e.code == 20 <==> e.report.status == ReportStale
    ensures e.code == 21 <==> e.report.status == ReportSuperseded
    ensures e.code == 22 <==> e.report.status == ReportFailed
    ensures e.code == 23 <==> e.report.status == ReportRecoveryFailed
    ensures e.code == 24 <==> e.report.status == ReportRolledBack
    ensures e.code == 0 <==>
      e.report.status in {ReportPrepared, ReportBuilt, ReportActivated, ReportVerified}
  {
  }

  /** The trace ends with the activation of a path and then only reads. */
  predicate Splits(t: seq<HostEvent>, before: seq<HostEvent>, path: string, tail: seq<HostEvent>) {
    t == before + [RanActivation(path, true)] + tail && ReadOnly(tail)
  }

  /** The last write activated the baseline, and everything read after it matched the baseline, boot included. */
  ghost predicate RestoredAfter(plan: Plan, t: seq<HostEvent>) {
    RestorePath(plan).Some? &&
    exists before, tail :: Splits(t, before, RestorePath(plan).value, tail) && EndsAtBaseline(plan, tail)
  }

  /** The last write activated the artifact, and it was accepted after that. */
  ghost predicate AcceptedAfter(artifact: Artifact, t: seq<HostEvent>) {
    exists before, tail :: Splits(t, before, artifact.outPath, tail) && Accepted(artifact, tail)
  }

  // ---------------------------------------------------------------- complete runs

  /** Both commands of a switch: only a store path is set, and only a set profile is activated. */
  predicate Switches(path: string, ok: bool, t: seq<HostEvent>) {
    if !IsStorePath(path) then t == [] && !ok
    else if |t| == 1 then t == [SetProfile(path, false)] && !ok
    else t == [SetProfile(path, true), RanActivation(path, ok)]
  }

  function Looks(t: seq<HostEvent>): (n: nat)
    decreases |t|
  {
    if t == [] then 0 else Looks(t[..|t| - 1]) + if t[|t| - 1].Saw? then 1 else 0
  }

  lemma LooksMore(t: seq<HostEvent>, e: HostEvent)
    ensures Looks(t + [e]) == Looks(t) + if e.Saw? then 1 else 0
  {
    assert (t + [e])[..|t|] == t;
  }

  /** Every observation of the artifact in both places was followed by the checks. */
  predicate Tried(artifact: Artifact, t: seq<HostEvent>) {
    forall i :: 0 <= i < |t| && t[i] == Saw(Some(artifact.outPath), Some(artifact.outPath)) ==>
      i + 1 < |t| && t[i + 1].Checked?
  }

  /** A verification that failed used up all its attempts. */
  predicate Rejected(artifact: Artifact, attempts: nat, t: seq<HostEvent>) {
    ReadOnly(t) && Tried(artifact, t) && !Accepted(artifact, t) && Looks(t) == attempts
  }

  lemma StillRejected(artifact: Artifact, attempts: nat, t: seq<HostEvent>, saw: HostEvent, checks: seq<HostEvent>)
    requires Rejected(artifact, attempts, t) && saw.Saw?
    requires if IsIntended(artifact, saw.running, saw.profile) then checks == [Checked(false)] else checks == []
    ensures Rejected(artifact, attempts + 1, t + [saw] + checks)
  {
    var t' := t + [saw] + checks;
    LooksMore(t, saw);
    if checks != [] {
      LooksMore(t + [saw], Checked(false));
    } else {
      assert t' == t + [saw];
    }
    if Accepted(artifact, t') {
      var i :| 0 <= i < |t'| - 1 && AcceptedAt(artifact, t', i);
      assert i < |t|;
      assert AcceptedAt(artifact, t, i);
    }
  }

  lemma NowAccepted(artifact: Artifact, attempts: nat, t: seq<HostEvent>, saw: HostEvent)
    requires Rejected(artifact, attempts, t) && saw.Saw? && IsIntended(artifact, saw.running, saw.profile)
    ensures
      var t' := t + [saw] + [Checked(true)];
      Accepted(artifact, t') && ReadOnly(t') && Tried(artifact, t') && Looks(t') == attempts + 1
  {
    var t' := t + [saw] + [Checked(true)];
    LooksMore(t, saw);
    LooksMore(t + [saw], Checked(true));
    assert AcceptedAt(artifact, t', |t|);
  }

  /** The whole course of a recovery, decided by its first observation and by what its writes did. */
  ghost predicate Recovers(spec: RunnerSpec, artifact: Artifact, action: DeploymentAction, r: Result<Ended, RunnerError>,
                           t: seq<HostEvent>)
  {
    && t != [] && t[0].Saw?
    && var owned :=
         && t[0].profile == Some(artifact.outPath)
         && (t[0].running == Some(artifact.outPath) || t[0].running == spec.plan.baseline.runningClosure);
       var restores := spec.automaticRollback || action == Rollback;
       var path := RestorePath(spec.plan);
       && (!owned <==> r.Ok? && r.value.report.status == ReportSuperseded)
       && (owned && !restores <==> r.Ok? && r.value.report.status == ReportFailed)
       && (owned && restores && path.None? <==> r.Err?)
       && (r.Err? ==> r == Err(NoRestorableBaseline))
       && (if owned && restores && path.Some?
           then r.Ok? && RestoresAs(spec.plan, path.value, r.value.report.status, t)
           else t == [t[0]])
  }

  /** The baseline is set unless it is no store path, and reported restored exactly when it was. */
  ghost predicate RestoresAs(plan: Plan, path: string, status: ReportStatus, t: seq<HostEvent>) {
    && (IsStorePath(path) <==> |t| > 1 && t[1].SetProfile? && t[1].path == path)
    && (|t| > 1 && t[1] == SetProfile(path, true) ==> |t| > 2 && t[2].RanActivation?)
    && (status == ReportRolledBack <==> RestoredAfter(plan, t))
    && (status == ReportRecoveryFailed <==> !RestoredAfter(plan, t))
  }

  /** The forward half of an activation that went into recovery: it wrote, and was not accepted. */
  ghost predicate Missed(plan: Plan, artifact: Artifact, t: seq<HostEvent>) {
    && !AcceptedAfter(artifact, t)
    && (IsStorePath(artifact.outPath) <==> exists i :: 0 <= i < |t| && t[i].SetProfile? && t[i].path == artifact.outPath)
  }

  predicate SetsOnly(t: seq<HostEvent>, path: string) {
    forall i :: 0 <= i < |t| && t[i].SetProfile? ==> t[i].path == path
  }

  lemma Slices(a: seq<HostEvent>, b: seq<HostEvent>)
    ensures |a| <= |a + b| && (a + b)[..|a|] == a && (a + b)[|a|..] == b
  {
  }

  // ---------------------------------------------------------------- the host

  class Host {
    var running: Option<string>
    var profile: Option<string>
    var bootId: Option<string>
    var generation: Option<nat>
    ghost var trace: seq<HostEvent>

    /** The outside writer, and time passing. */
    method Interfere()
      modifies this`running, this`profile, this`bootId, this`generation
    {
      running, profile, bootId, generation := *, *, *, *;
    }

    method Observe() returns (seenRunning: Option<string>, seenProfile: Option<string>)
      modifies this
      ensures trace == old(trace) + [Saw(seenRunning, seenProfile)]
    {
      Interfere();
      seenRunning := running;
      Interfere();
      seenProfile := profile;
      trace := trace + [Saw(seenRunning, seenProfile)];
    }

    method ReadBootId() returns (seen: Option<string>)
      modifies this
      ensures trace == old(trace) + [SawBoot(seen)]
    {
      Interfere();
      seen := bootId;
      trace := trace + [SawBoot(seen)];
    }

    method ReadGeneration() returns (seen: Option<nat>)
      modifies this
      ensures trace == old(trace) + [SawGeneration(seen)]
    {
      Interfere();
      seen := generation;
      trace := trace + [SawGeneration(seen)];
    }

    /** `restored_baseline_matches`; the generation is compared by the caller where it matters. */
    method BaselineMatches(plan: Plan, seenRunning: Option<string>, seenProfile: Option<string>)
      returns (ok: bool, ghost t: seq<HostEvent>)
      modifies this
      ensures trace == old(trace) + t
      ensures ReadOnly(t) && LastSaw(t).None? && forall e :: e in t ==> e.SawBoot?
      ensures ok <==>
        && OptionalMatches(plan.baseline.runningClosure, seenRunning)
        && OptionalMatches(plan.baseline.persistentProfile, seenProfile)
        && (plan.baseline.bootId.Some? ==> SawBoot(plan.baseline.bootId) in t)
    {
      t := [];
      ok := OptionalMatches(plan.baseline.runningClosure, seenRunning)
        && OptionalMatches(plan.baseline.persistentProfile, seenProfile);
      if ok && plan.baseline.bootId.Some? {
        var seen := ReadBootId();
        t := [SawBoot(seen)];
        ok := seen == plan.baseline.bootId;
      }
    }

    /** Either command may fail, and a failed one may still have taken effect. */
    method SetAndActivate(path: string) returns (ok: bool, ghost t: seq<HostEvent>)
      modifies this
      ensures trace == old(trace) + t
      ensures Switches(path, ok, t)
    {
      ok, t := false, [];
      if !IsStorePath(path) {
        return;
      }
      Interfere();
      ok := *;
      if ok {
        profile := Some(path);
      } else {
        profile := *;
      }
      generation := *;
      t := [SetProfile(path, ok)];
      trace := trace + t;
      if !ok {
        return;
      }
      Interfere();
      ok := *;
      if ok {
        running := Some(path);
      } else {
        running := *;
      }
      t := t + [RanActivation(path, ok)];
      trace := trace + [RanActivation(path, ok)];
      Interfere();
    }

    method VerifyIntended(spec: RunnerSpec, artifact: Artifact) returns (ok: bool, ghost t: seq<HostEvent>)
      modifies this
      ensures trace == old(trace) + t
      ensures ReadOnly(t) && Tried(artifact, t) && Looks(t) <= spec.verifyAttempts
      ensures ok <==> Accepted(artifact, t)
      ensures !ok ==> Looks(t) == spec.verifyAttempts
    {
      t := [];
      ok := false;
      for attempt := 0 to spec.verifyAttempts
        invariant trace == old(trace) + t && !ok && Rejected(artifact, attempt, t)
      {
        ok, t := TryOnce(artifact, attempt, old(trace), t);
        if ok {
          return;
        }
      }
    }

    /** One attempt: the checks run only when both links were seen on the artifact. */
    method TryOnce(artifact: Artifact, ghost attempt: nat, ghost start: seq<HostEvent>, ghost before: seq<HostEvent>)
      returns (ok: bool, ghost t: seq<HostEvent>)
      requires Rejected(artifact, attempt, before) && trace == start + before
      modifies this
      ensures trace == start + t
      ensures if ok then Accepted(artifact, t) && ReadOnly(t) && Tried(artifact, t) && Looks(t) == attempt + 1
              else Rejected(artifact, attempt + 1, t)
    {
      var seenRunning, seenProfile := Observe();
      ghost var saw := Saw(seenRunning, seenProfile);
      ghost var checks := [];
      ok := false;
      if IsIntended(artifact, seenRunning, seenProfile) {
        Interfere();
        ok := *;
        checks := [Checked(ok)];
        trace := trace + checks;
      }
      t := before + [saw] + checks;
      assert start + t == start + before + [saw] + checks;
      if ok {
        NowAccepted(artifact, attempt, before, saw);
      } else {
        StillRejected(artifact, attempt, before, saw, checks);
      }
    }

    method RecoverAfterFailure(spec: RunnerSpec, action: DeploymentAction)
      returns (r: Result<Ended, RunnerError>, ghost t: seq<HostEvent>)
      requires action == Activate || action == Verify || action == Rollback
      modifies this
      ensures trace == old(trace) + t
      ensures spec.artifact.None? <==> r == Err(ArtifactRequired)
      ensures spec.artifact.Some? ==>
        Restoring(spec.plan, spec.artifact.value, t) && Recovers(spec, spec.artifact.value, action, r, t)
      ensures r.Ok? ==> Honest(action, spec.plan, spec.artifact.value, r.value, t)
      ensures r.Err? || (!spec.automaticRollback && action != Rollback) ==> ReadOnly(t)
    {
      t := [];
      if spec.artifact.None? {
        return Err(ArtifactRequired), t;
      }
      var artifact := spec.artifact.value;
      var seenRunning, seenProfile := Observe();
      t := [Saw(seenRunning, seenProfile)];
      if !IsOwned(artifact, spec.plan.baseline.runningClosure, seenRunning, seenProfile) {
        ObservedIsHonest(action, spec.plan, artifact, ReportSuperseded, t, seenRunning, seenProfile);
        return Ok(ObservedReport(action, ReportSuperseded, seenRunning, seenProfile)), t;
      }
      if !spec.automaticRollback && action != Rollback {
        ObservedIsHonest(action, spec.plan, artifact, ReportFailed, t, seenRunning, seenProfile);
        return Ok(ObservedReport(action, ReportFailed, seenRunning, seenProfile)), t;
      }
      var baseline := RestorePath(spec.plan);
      if baseline.None? {
        return Err(NoRestorableBaseline), t;
      }
      var ended;
      ghost var more;
      ended, more := Restore(spec.plan, artifact, action, baseline.value, t);
      t := t + more;
      r := Ok(ended);
    }

    /** The writing half of a recovery, from the observation `owned`. */
    method Restore(plan: Plan, artifact: Artifact, action: DeploymentAction, path: string, ghost owned: seq<HostEvent>)
      returns (e: Ended, ghost t: seq<HostEvent>)
      requires action == Activate || action == Verify || action == Rollback
      requires |owned| == 1 && MayRestore(plan, artifact, owned, path)
      modifies this
      ensures trace == old(trace) + t
      ensures Restoring(plan, artifact, owned + t) && Honest(action, plan, artifact, e, owned + t)
      ensures RestoresAs(plan, path, e.report.status, owned + t)
    {
      ghost var more;
      var ok;
      ok, t := SetAndActivate(path);
      var seenRunning, seenProfile := Observe();
      ghost var saw := Saw(seenRunning, seenProfile);
      RestoreIsGuarded(plan, artifact, owned, t, path, saw, ok);
      e, more := JudgeRestore(plan, artifact, action, path, ok, seenRunning, seenProfile, owned, t);
      assert owned + (t + [saw] + more) == owned + (t + [saw]) + more;
      t := t + [saw] + more;
    }

    /** The reading half of a recovery; the baseline is compared only when both commands succeeded. */
    method JudgeRestore(plan: Plan, artifact: Artifact, action: DeploymentAction, path: string, switched: bool,
                        seenRunning: Option<string>, seenProfile: Option<string>,
                        ghost owned: seq<HostEvent>, ghost writes: seq<HostEvent>)
      returns (e: Ended, ghost t: seq<HostEvent>)
      requires action == Activate || action == Verify || action == Rollback
      requires Some(path) == RestorePath(plan) && Switches(path, switched, writes) && |owned| == 1 && owned[0].Saw?
      requires Restoring(plan, artifact, owned + (writes + [Saw(seenRunning, seenProfile)]))
      requires LastSaw(owned + (writes + [Saw(seenRunning, seenProfile)])) == Some(Saw(seenRunning, seenProfile))
      modifies this
      ensures trace == old(trace) + t
      ensures
        var before := owned + (writes + [Saw(seenRunning, seenProfile)]);
        Restoring(plan, artifact, before + t) && Honest(action, plan, artifact, e, before + t)
      ensures RestoresAs(plan, path, e.report.status, owned + (writes + [Saw(seenRunning, seenProfile)]) + t)
    {
      ghost var saw := Saw(seenRunning, seenProfile);
      ghost var before := owned + (writes + [saw]);
      var ok := false;
      t := [];
      if switched {
        ok, t := BaselineMatches(plan, seenRunning, seenProfile);
      }
      ReadAfterRestore(plan, artifact, before, t);
      RestoreIsJudged(plan, owned, writes, path, switched, saw, t, ok);
      var status := if ok then ReportRolledBack else ReportRecoveryFailed;
      ObservedIsHonest(action, plan, artifact, status, before + t, seenRunning, seenProfile);
      e := ObservedReport(action, status, seenRunning, seenProfile);
    }

    /** Without a recovery the change is stale, its artifact unavailable, or activated; `recovered` is where one begins. */
    method ActivateChange(spec: RunnerSpec)
      returns (r: Result<Ended, RunnerError>, ghost t: seq<HostEvent>, ghost recovered: Option<nat>)
      modifies this
      ensures trace == old(trace) + t
      ensures spec.artifact.None? <==> r == Err(ArtifactRequired)
      ensures spec.artifact.Some? ==> Guarded(spec.plan, spec.artifact.value, t)
      ensures r.Ok? ==> Honest(Activate, spec.plan, spec.artifact.value, r.value, t)
      ensures spec.artifact.Some? && recovered.None? ==>
        var artifact := spec.artifact.value;
        || (!MayActivate(spec.plan, artifact, t, artifact.outPath) && r.Ok? && r.value.report.status == ReportStale)
        || (MayActivate(spec.plan, artifact, t, artifact.outPath) && r == Err(ArtifactUnavailable))
        || (AcceptedAfter(artifact, t) && r.Ok? && r.value.report.status == ReportActivated)
      ensures spec.artifact.Some? && recovered.Some? ==>
        && recovered.value <= |t| && Missed(spec.plan, spec.artifact.value, t[..recovered.value])
        && Recovers(spec, spec.artifact.value, Activate, r, t[recovered.value..])
      ensures !spec.automaticRollback && spec.artifact.Some? ==> SetsOnly(t, spec.artifact.value.outPath)
    {
      t, recovered := [], None;
      if spec.artifact.None? {
        return Err(ArtifactRequired), t, None;
      }
      var artifact := spec.artifact.value;
      var ended;
      ended, t := CheckBaseline(spec.plan, artifact);
      if ended.Some? {
        return Ok(ended.value), t, None;
      }
      Interfere();
      var available: bool := *;
      if !available {
        return Err(ArtifactUnavailable), t, None;
      }
      r, t, recovered := SwitchOrRecover(spec, artifact, old(trace), t);
    }

    /** The writing part of an activation, from the baseline seen in `before`; `t` is the trace since `start`. */
    method SwitchOrRecover(spec: RunnerSpec, artifact: Artifact, ghost start: seq<HostEvent>, ghost before: seq<HostEvent>)
      returns (r: Result<Ended, RunnerError>, ghost t: seq<HostEvent>, ghost recovered: Option<nat>)
      requires spec.artifact == Some(artifact) && MayActivate(spec.plan, artifact, before, artifact.outPath)
      requires trace == start + before
      modifies this
      ensures trace == start + t && r != Err(ArtifactRequired) && Guarded(spec.plan, artifact, t)
      ensures r.Ok? ==> Honest(Activate, spec.plan, artifact, r.value, t)
      ensures recovered.None? ==> r.Ok? && r.value.report.status == ReportActivated
      ensures recovered.Some? ==>
        && recovered.value <= |t| && Missed(spec.plan, artifact, t[..recovered.value])
        && Recovers(spec, artifact, Activate, r, t[recovered.value..])
      ensures !spec.automaticRollback ==> SetsOnly(t, artifact.outPath)
    {
      var ended;
      ended, t := SwitchTo(spec, artifact, start, before);
      if ended.Some? {
        return Ok(ended.value), t, None;
      }
      recovered := Some(|t|);
      ghost var switched := t;
      r, t := RecoverActivation(spec, artifact, start, switched);
    }

    method RecoverActivation(spec: RunnerSpec, artifact: Artifact, ghost start: seq<HostEvent>, ghost before: seq<HostEvent>)
      returns (r: Result<Ended, RunnerError>, ghost t: seq<HostEvent>)
      requires spec.artifact == Some(artifact) && Guarded(spec.plan, artifact, before) && trace == start + before
      modifies this
      ensures trace == start + t && |before| <= |t| && t[..|before|] == before
      ensures r != Err(ArtifactRequired) && Guarded(spec.plan, artifact, t)
      ensures r.Ok? ==> Honest(Activate, spec.plan, artifact, r.value, t)
      ensures Recovers(spec, artifact, Activate, r, t[|before|..])
      ensures !spec.automaticRollback && SetsOnly(before, artifact.outPath) ==> SetsOnly(t, artifact.outPath)
    {
      ghost var more;
      r, more := RecoverAfterFailure(spec, Activate);
      GuardedThenRestoring(spec.plan, artifact, before, more);
      if r.Ok? {
        HonestAfter(Activate, spec.plan, artifact, r.value, before, more);
      }
      Slices(before, more);
      t := before + more;
      assert start + t == start + before + more;
    }

    /** Writes the artifact onto the baseline seen in `before` and accepts it, or reports nothing. */
    method SwitchTo(spec: RunnerSpec, artifact: Artifact, ghost start: seq<HostEvent>, ghost before: seq<HostEvent>)
      returns (ended: Option<Ended>, ghost t: seq<HostEvent>)
      requires MayActivate(spec.plan, artifact, before, artifact.outPath) && trace == start + before
      modifies this
      ensures trace == start + t && Guarded(spec.plan, artifact, t) && SetsOnly(t, artifact.outPath)
      ensures ended.Some? ==>
        ended.value.report.status == ReportActivated && Honest(Activate, spec.plan, artifact, ended.value, t)
      ensures ended.None? ==> Missed(spec.plan, artifact, t)
    {
      ghost var writes;
      var ok;
      ended := None;
      ok, writes := SetAndActivate(artifact.outPath);
      assert start + (before + writes) == start + before + writes;
      ActivationIsGuarded(spec.plan, artifact, before, writes, ok);
      t := before + writes;
      if !ok {
        SwitchIsMissed(spec.plan, artifact, before, writes);
        return;
      }
      ended, t := AcceptSwitch(spec, artifact, start, before, writes);
    }

    /** The reading half of an activation, after both commands succeeded. */
    method AcceptSwitch(spec: RunnerSpec, artifact: Artifact, ghost start: seq<HostEvent>, ghost before: seq<HostEvent>,
                        ghost writes: seq<HostEvent>)
      returns (ended: Option<Ended>, ghost t: seq<HostEvent>)
      requires ReadOnly(before) && Switches(artifact.outPath, true, writes) && Guarded(spec.plan, artifact, before + writes)
      requires trace == start + (before + writes)
      modifies this
      ensures trace == start + t && Guarded(spec.plan, artifact, t) && SetsOnly(t, artifact.outPath)
      ensures ended.Some? ==>
        ended.value.report.status == ReportActivated && Honest(Activate, spec.plan, artifact, ended.value, t)
      ensures ended.None? ==> Missed(spec.plan, artifact, t)
    {
      ghost var checks;
      var ok;
      ended := None;
      ok, checks := VerifyIntended(spec, artifact);
      t := before + writes + checks;
      assert trace == start + t;
      if ok {
        var seenRunning, seenProfile := Observe();
        SwitchIsAccepted(spec.plan, artifact, before, writes, checks, seenRunning, seenProfile);
        assert start + (t + [Saw(seenRunning, seenProfile)]) == start + t + [Saw(seenRunning, seenProfile)];
        t := t + [Saw(seenRunning, seenProfile)];
        ended := Some(ObservedReport(Activate, ReportActivated, seenRunning, seenProfile));
      } else {
        SwitchIsRejected(spec.plan, artifact, before, writes, checks);
      }
    }

    /** The first half of an activation: a Stale report, or a trace that justifies the write. */
    method CheckBaseline(plan: Plan, ghost artifact: Artifact) returns (stale: Option<Ended>, ghost t: seq<HostEvent>)
      modifies this
      ensures trace == old(trace) + t && ReadOnly(t)
      ensures stale.None? <==> MayActivate(plan, artifact, t, artifact.outPath)
      ensures stale.Some? ==> stale.value.report.status == ReportStale && Honest(Activate, plan, artifact, stale.value, t)
    {
      ghost var readings;
      var ok;
      var seenRunning, seenProfile := Observe();
      ghost var saw := Saw(seenRunning, seenProfile);
      ok, readings := BaselineMatches(plan, seenRunning, seenProfile);
      if ok && plan.baseline.generation.Some? {
        var seen := ReadGeneration();
        LastSawOf(readings, SawGeneration(seen));
        readings := readings + [SawGeneration(seen)];
        ok := seen == plan.baseline.generation;
      }
      t := [saw] + readings;
      BaselineIsSeen(plan, artifact, saw, readings);
      stale := None;
      if !ok {
        StaleIsHonest(plan, artifact, t, seenRunning, seenProfile);
        stale := Some(ObservedReport(Activate, ReportStale, seenRunning, seenProfile));
      }
    }

    /** `recovered` is where the recovery begins that follows a failed acceptance. */
    method VerifyChange(spec: RunnerSpec)
      returns (r: Result<Ended, RunnerError>, ghost t: seq<HostEvent>, ghost recovered: Option<nat>)
      modifies this
      ensures trace == old(trace) + t
      ensures spec.artifact.None? <==> r == Err(ArtifactRequired)
      ensures spec.artifact.Some? ==> Restoring(spec.plan, spec.artifact.value, t)
      ensures r.Ok? ==> Honest(Verify, spec.plan, spec.artifact.value, r.value, t)
      ensures spec.artifact.Some? && recovered.None? ==> r.Ok? && r.value.report.status == ReportVerified
      ensures spec.artifact.Some? && recovered.Some? ==>
        && recovered.value <= |t| && Rejected(spec.artifact.value, spec.verifyAttempts, t[..recovered.value])
        && Recovers(spec, spec.artifact.value, Verify, r, t[recovered.value..])
      ensures !spec.automaticRollback ==> ReadOnly(t)
    {
      t, recovered := [], None;
      if spec.artifact.None? {
        return Err(ArtifactRequired), t, None;
      }
      var artifact := spec.artifact.value;
      ghost var more;
      var ok;
      ok, t := VerifyIntended(spec, artifact);
      if ok {
        r, more := AcceptVerification(spec, artifact, t);
        return r, t + more, None;
      }
      recovered := Some(|t|);
      r, t := RecoverVerification(spec, artifact, old(trace), t);
    }

    /** The last observation of a verification that passed, after the trace `before`. */
    method AcceptVerification(spec: RunnerSpec, artifact: Artifact, ghost before: seq<HostEvent>)
      returns (r: Result<Ended, RunnerError>, ghost t: seq<HostEvent>)
      requires ReadOnly(before) && Accepted(artifact, before)
      modifies this
      ensures trace == old(trace) + t && ReadOnly(before + t)
      ensures r.Ok? && r.value.report.status == ReportVerified && Honest(Verify, spec.plan, artifact, r.value, before + t)
    {
      var seenRunning, seenProfile := Observe();
      t := [Saw(seenRunning, seenProfile)];
      LastSawAppend(before, t);
      AcceptedAppend(artifact, before, t);
      r := Ok(ObservedReport(Verify, ReportVerified, seenRunning, seenProfile));
    }

    method RecoverVerification(spec: RunnerSpec, artifact: Artifact, ghost start: seq<HostEvent>, ghost before: seq<HostEvent>)
      returns (r: Result<Ended, RunnerError>, ghost t: seq<HostEvent>)
      requires spec.artifact == Some(artifact) && ReadOnly(before) && trace == start + before
      modifies this
      ensures trace == start + t && |before| <= |t| && t[..|before|] == before
      ensures r != Err(ArtifactRequired) && Restoring(spec.plan, artifact, t)
      ensures r.Ok? ==> Honest(Verify, spec.plan, artifact, r.value, t)
      ensures Recovers(spec, artifact, Verify, r, t[|before|..])
      ensures !spec.automaticRollback ==> ReadOnly(t)
    {
      ghost var more;
      r, more := RecoverAfterFailure(spec, Verify);
      ReadingThenRestoring(spec.plan, artifact, before, more);
      if r.Ok? {
        HonestAfter(Verify, spec.plan, artifact, r.value, before, more);
      }
      Slices(before, more);
      t := before + more;
      assert start + t == start + before + more;
    }

    method RollbackChange(spec: RunnerSpec) returns (r: Result<Ended, RunnerError>, ghost t: seq<HostEvent>)
      modifies this
      ensures trace == old(trace) + t
      ensures spec.artifact.None? <==> r == Err(ArtifactRequired)
      ensures spec.artifact.Some? ==>
        Restoring(spec.plan, spec.artifact.value, t) && Recovers(spec, spec.artifact.value, Rollback, r, t)
      ensures r.Ok? ==> Honest(Rollback, spec.plan, spec.artifact.value, r.value, t) && r.value.report.status != ReportFailed
    {
      r, t := RecoverAfterFailure(spec, Rollback);
    }
  }

  // ---------------------------------------------------------------- traces of the methods

  lemma RestoreIsGuarded(plan: Plan, artifact: Artifact, owned: seq<HostEvent>, writes: seq<HostEvent>, path: string,
                         saw: HostEvent, ok: bool)
    requires |owned| == 1 && MayRestore(plan, artifact, owned, path) && saw.Saw?
    requires Switches(path, ok, writes)
    ensures Restoring(plan, artifact, owned + (writes + [saw])) && LastSaw(owned + (writes + [saw])) == Some(saw)
  {
    var t := owned + (writes + [saw]);
    assert owned[0].Saw?;
    forall i | 0 <= i < |t| && t[i].SetProfile? ensures MayRestore(plan, artifact, t[..i], t[i].path) {
      assert i == 1 && t[..i] == owned;
    }
  }

  lemma ObservedIsHonest(action: DeploymentAction, plan: Plan, artifact: Artifact, status: ReportStatus, t: seq<HostEvent>,
                         running: Option<string>, profile: Option<string>)
    requires (action == Activate || action == Verify || action == Rollback) && LastSaw(t) == Some(Saw(running, profile))
    requires match status
             case ReportSuperseded => ReadOnly(t) && !EndsOwned(plan, artifact, t)
             case ReportFailed => ReadOnly(t) && action != Rollback
             case ReportRolledBack => RestoredAfter(plan, t)
             case _ => status == ReportRecoveryFailed
    ensures Honest(action, plan, artifact, ObservedReport(action, status, running, profile), t)
  {
  }

  lemma ReadAfterRestore(plan: Plan, artifact: Artifact, t: seq<HostEvent>, readings: seq<HostEvent>)
    requires Restoring(plan, artifact, t) && ReadOnly(readings) && LastSaw(readings).None?
    ensures Restoring(plan, artifact, t + readings) && LastSaw(t + readings) == LastSaw(t)
  {
    RestoringThenReading(plan, artifact, t, readings);
    LastSawAppend(t, readings);
  }

  /** The activation that succeeded is the only one in the trace, so what was read after it decides. */
  lemma RestoreIsConfirmed(plan: Plan, owned: seq<HostEvent>, writes: seq<HostEvent>, path: string, saw: HostEvent,
                           readings: seq<HostEvent>)
    requires Some(path) == RestorePath(plan) && saw.Saw? && ReadOnly(readings) && LastSaw(readings).None?
    requires Switches(path, true, writes) && |owned| == 1 && owned[0].Saw?
    ensures RestoredAfter(plan, owned + (writes + [saw]) + readings) <==>
      && OptionalMatches(plan.baseline.runningClosure, saw.running)
      && OptionalMatches(plan.baseline.persistentProfile, saw.profile)
      && (plan.baseline.bootId.Some? ==> SawBoot(plan.baseline.bootId) in readings)
  {
    var t := owned + (writes + [saw]) + readings;
    var tail := [saw] + readings;
    LastSawAppend([saw], readings);
    assert Splits(t, owned + [SetProfile(path, true)], path, tail);
    assert EndsAtBaseline(plan, tail) <==>
      && OptionalMatches(plan.baseline.runningClosure, saw.running)
      && OptionalMatches(plan.baseline.persistentProfile, saw.profile)
      && (plan.baseline.bootId.Some? ==> SawBoot(plan.baseline.bootId) in readings);
    forall before, tail' | Splits(t, before, path, tail') ensures tail' == tail {
      SplitIsUnique(t, owned + [SetProfile(path, true)], tail, before, tail', path);
    }
  }

  lemma AfterSplit(t: seq<HostEvent>, before: seq<HostEvent>, path: string, tail: seq<HostEvent>)
    requires Splits(t, before, path, tail)
    ensures |before| < |t| && t[|before|] == RanActivation(path, true)
    ensures before == t[..|before|] && tail == t[|before| + 1..]
    ensures forall i :: |before| < i < |t| ==> !Writes(t[i])
  {
    forall i | |before| < i < |t| ensures !Writes(t[i]) {
      assert t[i] == tail[i - |before| - 1];
    }
  }

  lemma SplitIsUnique(t: seq<HostEvent>, a: seq<HostEvent>, b: seq<HostEvent>, c: seq<HostEvent>, d: seq<HostEvent>, path: string)
    requires Splits(t, a, path, b) && Splits(t, c, path, d)
    ensures a == c && b == d
  {
    AfterSplit(t, a, path, b);
    AfterSplit(t, c, path, d);
    assert Writes(t[|a|]) && Writes(t[|c|]);
  }

  /** A switch that failed restored nothing. */
  lemma FailedRestore(plan: Plan, owned: seq<HostEvent>, writes: seq<HostEvent>, path: string, saw: HostEvent)
    requires Some(path) == RestorePath(plan) && Switches(path, false, writes) && saw.Saw? && |owned| == 1 && owned[0].Saw?
    ensures !RestoredAfter(plan, owned + (writes + [saw]))
  {
    var t := owned + (writes + [saw]);
    if RestoredAfter(plan, t) {
      var before, tail :| Splits(t, before, path, tail) && EndsAtBaseline(plan, tail);
      AfterSplit(t, before, path, tail);
    }
  }

  lemma RestoreIsJudged(plan: Plan, owned: seq<HostEvent>, writes: seq<HostEvent>, path: string, switched: bool, saw: HostEvent,
                        readings: seq<HostEvent>, ok: bool)
    requires Some(path) == RestorePath(plan) && saw.Saw? && ReadOnly(readings) && LastSaw(readings).None?
    requires Switches(path, switched, writes) && |owned| == 1 && owned[0].Saw?
    requires if switched then
               ok <==>
                 && OptionalMatches(plan.baseline.runningClosure, saw.running)
                 && OptionalMatches(plan.baseline.persistentProfile, saw.profile)
                 && (plan.baseline.bootId.Some? ==> SawBoot(plan.baseline.bootId) in readings)
             else !ok && readings == []
    ensures
      var t := owned + (writes + [saw]) + readings;
      RestoresAs(plan, path, if ok then ReportRolledBack else ReportRecoveryFailed, t) && (ok <==> RestoredAfter(plan, t))
  {
    if switched {
      RestoreIsConfirmed(plan, owned, writes, path, saw, readings);
    } else {
      FailedRestore(plan, owned, writes, path, saw);
      assert owned + (writes + [saw]) + readings == owned + (writes + [saw]);
    }
  }

  lemma SwitchIsMissed(plan: Plan, artifact: Artifact, before: seq<HostEvent>, writes: seq<HostEvent>)
    requires ReadOnly(before) && Switches(artifact.outPath, false, writes)
    ensures Missed(plan, artifact, before + writes)
  {
    var t := before + writes;
    var path := artifact.outPath;
    if AcceptedAfter(artifact, t) {
      var a, tail :| Splits(t, a, path, tail) && Accepted(artifact, tail);
      AfterSplit(t, a, path, tail);
    }
    if IsStorePath(path) {
      assert t[|before|] == writes[0];
    }
  }

  lemma ChecksAreMissed(plan: Plan, artifact: Artifact, before: seq<HostEvent>, writes: seq<HostEvent>, checks: seq<HostEvent>)
    requires ReadOnly(before) && Switches(artifact.outPath, true, writes) && ReadOnly(checks) && !Accepted(artifact, checks)
    ensures Missed(plan, artifact, before + (writes + checks))
  {
    var t := before + (writes + checks);
    var path := artifact.outPath;
    assert t[|before|] == writes[0];
    assert Splits(t, before + [SetProfile(path, true)], path, checks);
    forall a, tail | Splits(t, a, path, tail) ensures tail == checks {
      SplitIsUnique(t, before + [SetProfile(path, true)], checks, a, tail, path);
    }
  }

  /** The acceptance comes after the artifact's own activation. */
  lemma ActivationIsAccepted(artifact: Artifact, before: seq<HostEvent>, writes: seq<HostEvent>, checks: seq<HostEvent>,
                             saw: seq<HostEvent>)
    requires ReadOnly(checks) && ReadOnly(saw) && Accepted(artifact, checks)
    requires Switches(artifact.outPath, true, writes)
    ensures AcceptedAfter(artifact, before + (writes + checks + saw))
  {
    AcceptedAppend(artifact, checks, saw);
    assert Splits(before + (writes + checks + saw), before + [SetProfile(artifact.outPath, true)], artifact.outPath, checks + saw);
  }

  lemma RestoredAfterAppend(plan: Plan, a: seq<HostEvent>, b: seq<HostEvent>)
    requires RestoredAfter(plan, b)
    ensures RestoredAfter(plan, a + b)
  {
    var path := RestorePath(plan).value;
    var before, tail :| Splits(b, before, path, tail) && EndsAtBaseline(plan, tail);
    assert a + b == (a + before) + [RanActivation(path, true)] + tail;
    assert Splits(a + b, a + before, path, tail);
  }

  /** A recovery stays honest about the longer trace that led to it. */
  lemma HonestAfter(action: DeploymentAction, plan: Plan, artifact: Artifact, e: Ended, a: seq<HostEvent>, b: seq<HostEvent>)
    requires Honest(action, plan, artifact, e, b)
    requires e.report.status in {ReportSuperseded, ReportFailed, ReportRecoveryFailed, ReportRolledBack}
    requires action == Activate || ReadOnly(a)
    ensures Honest(action, plan, artifact, e, a + b)
  {
    LastSawAppend(a, b);
    if e.report.status == ReportRolledBack {
      RestoredAfterAppend(plan, a, b);
    }
  }

  lemma StaleIsHonest(plan: Plan, artifact: Artifact, t: seq<HostEvent>, running: Option<string>, profile: Option<string>)
    requires ReadOnly(t) && LastSaw(t) == Some(Saw(running, profile))
    ensures Honest(Activate, plan, artifact, ObservedReport(Activate, ReportStale, running, profile), t)
  {
  }

  /** What a switch that passed its checks leaves, with the last observation of its report. */
  lemma SwitchIsAccepted(plan: Plan, artifact: Artifact, before: seq<HostEvent>, writes: seq<HostEvent>, checks: seq<HostEvent>,
                         running: Option<string>, profile: Option<string>)
    requires ReadOnly(before) && Switches(artifact.outPath, true, writes) && Guarded(plan, artifact, before + writes)
    requires ReadOnly(checks) && Accepted(artifact, checks)
    ensures
      var t := before + writes + checks + [Saw(running, profile)];
      && Guarded(plan, artifact, t) && SetsOnly(t, artifact.outPath)
      && Honest(Activate, plan, artifact, ObservedReport(Activate, ReportActivated, running, profile), t)
  {
    var saw := [Saw(running, profile)];
    var tail := checks + saw;
    GuardedThenReading(plan, artifact, before + writes, tail);
    SwitchSetsOnly(before, writes, tail, artifact.outPath);
    ActivationIsAccepted(artifact, before, writes, checks, saw);
    LastSawAppend(before + writes + checks, saw);
    assert before + writes + checks + saw == before + writes + tail == before + (writes + checks + saw);
  }

  /** What a switch that failed its checks leaves. */
  lemma SwitchIsRejected(plan: Plan, artifact: Artifact, before: seq<HostEvent>, writes: seq<HostEvent>, checks: seq<HostEvent>)
    requires ReadOnly(before) && Switches(artifact.outPath, true, writes) && Guarded(plan, artifact, before + writes)
    requires ReadOnly(checks) && !Accepted(artifact, checks)
    ensures
      var t := before + writes + checks;
      Guarded(plan, artifact, t) && SetsOnly(t, artifact.outPath) && Missed(plan, artifact, t)
  {
    GuardedThenReading(plan, artifact, before + writes, checks);
    SwitchSetsOnly(before, writes, checks, artifact.outPath);
    MissedTogether(plan, artifact, before, writes, checks);
  }

  lemma MissedTogether(plan: Plan, artifact: Artifact, before: seq<HostEvent>, writes: seq<HostEvent>, checks: seq<HostEvent>)
    requires ReadOnly(before) && Switches(artifact.outPath, true, writes) && ReadOnly(checks) && !Accepted(artifact, checks)
    ensures Missed(plan, artifact, before + writes + checks)
  {
    ChecksAreMissed(plan, artifact, before, writes, checks);
    assert before + writes + checks == before + (writes + checks);
  }

  lemma SwitchSetsOnly(before: seq<HostEvent>, writes: seq<HostEvent>, tail: seq<HostEvent>, path: string)
    requires ReadOnly(before) && Switches(path, true, writes) && ReadOnly(tail)
    ensures SetsOnly(before + writes + tail, path)
  {
  }

  lemma BaselineIsSeen(plan: Plan, artifact: Artifact, saw: HostEvent, readings: seq<HostEvent>)
    requires saw.Saw? && ReadOnly(readings) && LastSaw(readings).None?
    ensures ReadOnly([saw] + readings) && LastSaw([saw] + readings) == Some(saw)
    ensures
      && OptionalMatches(plan.baseline.runningClosure, saw.running)
      && OptionalMatches(plan.baseline.persistentProfile, saw.profile)
      && (plan.baseline.bootId.Some? ==> SawBoot(plan.baseline.bootId) in readings)
      && (plan.baseline.generation.Some? ==> SawGeneration(plan.baseline.generation) in readings)
      <==> MayActivate(plan, artifact, [saw] + readings, artifact.outPath)
  {
    LastSawAppend([saw], readings);
  }

  lemma ActivationIsGuarded(plan: Plan, artifact: Artifact, before: seq<HostEvent>, writes: seq<HostEvent>, ok: bool)
    requires MayActivate(plan, artifact, before, artifact.outPath)
    requires Switches(artifact.outPath, ok, writes)
    ensures Guarded(plan, artifact, before + writes)
  {
    var t := before + writes;
    forall i | 0 <= i < |t| && t[i].SetProfile? ensures MayActivate(plan, artifact, t[..i], t[i].path) {
      assert i == |before| && t[..i] == before;
    }
  }

  lemma RestoringThenReading(plan: Plan, artifact: Artifact, a: seq<HostEvent>, b: seq<HostEvent>)
    requires Restoring(plan, artifact, a) && ReadOnly(b)
    ensures Restoring(plan, artifact, a + b)
  {
    forall i | 0 <= i < |a + b| && (a + b)[i].SetProfile? ensures MayRestore(plan, artifact, (a + b)[..i], (a + b)[i].path) {
      assert (a + b)[..i] == a[..i];
    }
  }

  lemma GuardedThenReading(plan: Plan, artifact: Artifact, a: seq<HostEvent>, b: seq<HostEvent>)
    requires Guarded(plan, artifact, a) && ReadOnly(b)
    ensures Guarded(plan, artifact, a + b)
  {
    var t := a + b;
    forall i | 0 <= i < |t| && t[i].SetProfile?
      ensures MayActivate(plan, artifact, t[..i], t[i].path) || MayRestore(plan, artifact, t[..i], t[i].path)
    {
      assert t[..i] == a[..i];
    }
  }

  lemma ReadingThenRestoring(plan: Plan, artifact: Artifact, a: seq<HostEvent>, b: seq<HostEvent>)
    requires ReadOnly(a) && Restoring(plan, artifact, b)
    ensures Restoring(plan, artifact, a + b)
  {
    var t := a + b;
    forall i | 0 <= i < |t| && t[i].SetProfile? ensures MayRestore(plan, artifact, t[..i], t[i].path) {
      assert MayRestore(plan, artifact, b[..i - |a|], b[i - |a|].path);
      assert t[..i] == a + b[..i - |a|];
      LastSawAppend(a, b[..i - |a|]);
    }
    forall i | 0 <= i < |t| && t[i].RanActivation? ensures i > 0 && t[i - 1] == SetProfile(t[i].path, true) {
      assert b[i - |a|].RanActivation?;
    }
  }

  lemma AcceptedAppend(artifact: Artifact, a: seq<HostEvent>, b: seq<HostEvent>)
    requires Accepted(artifact, a) || Accepted(artifact, b)
    ensures Accepted(artifact, a + b)
  {
    if Accepted(artifact, a) {
      var i :| 0 <= i < |a| - 1 && AcceptedAt(artifact, a, i);
      assert AcceptedAt(artifact, a + b, i);
    } else {
      var i :| 0 <= i < |b| - 1 && AcceptedAt(artifact, b, i);
      assert AcceptedAt(artifact, a + b, |a| + i);
    }
  }
}
