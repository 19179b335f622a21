/** Calibrations inside the controller: every input it builds for the runner is
    honest, and every calibration leaves Calibrating. */
module ControllerCalib {
  import opened Prelude
  import opened Controller
  import opened ControllerProofs
  import opened ControllerSessions
  import opened ControllerSteps
  import opened Runner
  import RunnerProofs
  import StepHistory
  import StepTest
  import Ending = StepTermination
  import G = GpuVerify
  import V = Verdicts

  // ---- Verified evidence has a commanded value behind it ----

  predicate Backed(sh: Shell) {
    && (sh.evidence.cpuVerified ==> sh.status.cpuLimit.Some?)
    && (sh.evidence.gpuCommands != [] ==> sh.status.gpuMax.Some?)
  }

  /** No completion stamp lies beyond the bound. */
  predicate StampedBy(evidence: Evidence, bound: real) {
    && (evidence.cpuCompletedAt.Some? ==> evidence.cpuCompletedAt.value <= bound)
    && (evidence.gpuCompletedAt.Some? ==> evidence.gpuCompletedAt.value <= bound)
  }

  lemma {:induction false} NothingToPair(at: real)
    ensures G.Allowed([], at) == None
  {
  }

  /** The input built for the runner: a verified cap has a value, and the
      stamps and times are those of the evidence and the sample. */
  lemma {:induction false} InputIsBacked(sh: Shell, r: RunState, s: Sample, tick: Tick, world: World)
    requires Backed(sh)
    ensures var (sh', x) := Prepared(sh, r, s, tick, world);
            && Backed(sh') && sh'.status == sh.status
            && sh'.evidence.cpuCompletedAt == sh.evidence.cpuCompletedAt && sh'.evidence.gpuCompletedAt == sh.evidence.gpuCompletedAt
            && x.s.t == Finite(s.t)
            && (x.ctx.cpuVerified ==> x.ctx.cpuCap.Some?) && (x.ctx.gpuVerified ==> x.ctx.gpuCap.Some?)
            && x.ctx.cpuCompletedAt == sh.evidence.cpuCompletedAt && x.ctx.gpuCompletedAt == sh.evidence.gpuCompletedAt
  {
    hide TooHotToRepair, FinishingResponse, G.Allowed, G.ScoreAgainst;
    NothingToPair(s.t);
  }

  /** When the CPU cap is read: in force and unfenced, and never read before,
      ten seconds ago, or in a response whose six minutes are over. */
  predicate CheckedNow(sh: Shell, r: RunState, s: Sample, world: World) {
    && !world.down && world.hasCpu && sh.status.cpuLimit.Some?
    && (|| sh.evidence.cpuCheckedAt.None? || s.t - sh.evidence.cpuCheckedAt.value >= 10.0
        || ((r.step.sub.CpuStep? || r.step.sub.GpuStep?) && r.step.commandedAt.Some? && s.t - r.step.commandedAt.value >= 360.0))
  }

  predicate TooHot(s: Sample, tick: Tick) {
    || (s.cpuTemp.Some? && s.cpuTemp.value >= tick.limits.cpuHot)
    || (s.gpuTemp.Some? && s.gpuTemp.value >= tick.limits.gpuHot)
    || (tick.sense.ecMax.Some? && tick.sense.ecMax.value >= 95)
  }

  /** What the runner is told about the CPU cap is fresh: the cap is read when
      that is due and otherwise was read less than ten seconds ago, a response
      about to be fitted is judged by this sample's own read, a lost cap is
      reported, and it is written again unless something is hot. */
  lemma {:induction false} CpuEvidenceIsFresh(sh: Shell, r: RunState, s: Sample, tick: Tick, world: World)
    ensures var (sh', x) := Prepared(sh, r, s, tick, world);
            var checked := CheckedNow(sh, r, s, world);
            var lost := checked && tick.check.observed == V.Mismatch;
            && (x.ctx.cpuReset <==> lost)
            && sh'.hardware == sh.hardware + (if lost && !TooHot(s, tick) then [CapCpu] else [])
            && (x.ctx.cpuVerified <==>
                  if !checked then sh.evidence.cpuVerified
                  else if lost && !TooHot(s, tick) then tick.check.repaired == V.Verified
                  else tick.check.observed == V.Verified)
            && (checked ==> sh'.evidence.cpuCheckedAt == Some(tick.check.at))
            && (!checked ==> sh'.evidence.cpuCheckedAt == sh.evidence.cpuCheckedAt)
            && (!checked && !world.down && world.hasCpu && sh.status.cpuLimit.Some? ==>
                  sh.evidence.cpuCheckedAt.Some? && s.t - sh.evidence.cpuCheckedAt.value < 10.0)
  {
    hide GpuScore;
  }

  /** The GPU cap counts as verified exactly when this sample reads a clock,
      is no resume, and pairs with a command of this run that allows it. */
  lemma {:induction false} GpuEvidenceIsPaired(sh: Shell, r: RunState, s: Sample, tick: Tick, world: World)
    requires tick.sense.gpuSm.Some?
    ensures var (sh', x) := Prepared(sh, r, s, tick, world);
            var reading := G.Reading(tick.sense.gpuUtil, tick.sense.gpuSm.value, s.t, sh.evidence.gpuCommands);
            && (x.ctx.gpuVerified <==> !s.resumed && G.Score(sh.evidence.gpuStreak, reading).1.Verified?)
            && sh'.evidence.gpuStreak == (if s.resumed then sh.evidence.gpuStreak else G.Score(sh.evidence.gpuStreak, reading).0)
            && sh'.evidence.gpuCommands == sh.evidence.gpuCommands
  {
    hide G.Score, TooHotToRepair, FinishingResponse;
  }

  /** An answered write completes by the bound. */
  predicate Completed(reply: Reply, bound: real) {
    reply.cpu.Some? || reply.gpu.Some? ==> reply.at <= bound
  }

  lemma {:induction false} CpuAnswerBacked(sh: Shell, reply: Reply, bound: real)
    requires Backed(sh) && StampedBy(sh.evidence, bound) && Completed(reply, bound)
    ensures var sh' := CpuAnswered(sh, reply, true); Backed(sh') && StampedBy(sh'.evidence, bound)
  {
  }

  lemma {:induction false} GpuAnswerBacked(sh: Shell, reply: Reply, bound: real)
    requires Backed(sh) && StampedBy(sh.evidence, bound) && Completed(reply, bound)
    ensures var sh' := GpuAnswered(sh, reply, true); Backed(sh') && StampedBy(sh'.evidence, bound)
  {
    hide G.Kept;
  }

  lemma {:induction false} SyncKeepsEvidence(sh: Shell, f: Flag, on: bool)
    ensures SyncFlag(sh, f, on).evidence == sh.evidence && SameLimits(sh, SyncFlag(sh, f, on))
  {
    hide Without;
  }

  lemma {:induction false} BurnerKeepsEvidence(sh: Shell)
    ensures StopBurner(sh).evidence == sh.evidence && SameLimits(sh, StopBurner(sh))
  {
  }

  lemma {:induction false} EffectBacked(sh: Shell, e: RunnerEffect, reply: Reply, world: World, bound: real)
    requires Backed(sh) && StampedBy(sh.evidence, bound) && Completed(reply, bound)
    ensures var sh' := CalibEffect(sh, e, reply, true, world); Backed(sh') && StampedBy(sh'.evidence, bound)
  {
    hide SyncFlag, StopBurner, CpuAnswered, GpuAnswered;
    match e {
      case SaveState(cpu, gpu) => SyncKeepsEvidence(sh.(saved := Saved(cpu, gpu)), NotCalibrated, !Calibrated(world.viewKey, cpu, gpu));
      case Finished =>
      case Machine(m) =>
        match m {
          case SetCpu(_) => CpuAnswerBacked(Issue(sh.(evidence := sh.evidence.(cpuVerified := false)), CapCpu), reply, bound);
          case SetGpu(_) => GpuAnswerBacked(Issue(sh, CapGpu), reply, bound);
          case StartBurner(_) => BurnerKeepsEvidence(sh);
          case StopBurner => BurnerKeepsEvidence(sh);
          case Fitted(_, _) =>
          case Noted =>
          case Retrying =>
        }
    }
  }

  /** Every write answered during the call completes by the bound. */
  predicate RepliesBy(world: World, bound: real) {
    forall i :: 0 <= i < |world.replies| ==> world.replies[i].at <= bound
  }

  lemma {:induction false} BatchBacked(sh: Shell, effects: seq<RunnerEffect>, world: World, bound: real)
    requires Backed(sh) && StampedBy(sh.evidence, bound) && RepliesBy(world, bound)
    ensures var sh' := CalibEffects(sh, effects, true, world); Backed(sh') && StampedBy(sh'.evidence, bound)
  {
    hide CalibEffect, Backed, StampedBy;
    if effects != [] {
      var n := |effects| - 1;
      BatchBacked(sh, effects[..n], world, bound);
      EffectBacked(CalibEffects(sh, effects[..n], true, world), effects[n], ReplyAt(world, n), world, bound);
    }
  }

  // ---- One sample of a run that goes on ----

  /** A serviced sample keeps the evidence backed, and its stamps within the
      bound that its own writes meet. */
  lemma {:induction false} SampleBacked(fit: StepTest.Fitter, sh: Shell, s: Sample, tick: Tick, world: World, bound: real)
    requires Inv(sh) && sh.status.mode == Calibrating && Serviced(sh, s, world) && !Taken(fit, sh, s, tick, world).0.finished
    requires Backed(sh) && StampedBy(sh.evidence, bound) && RepliesBy(world, bound)
    ensures var sh' := OnSample(fit, sh, s, tick, world).0; Backed(sh') && StampedBy(sh'.evidence, bound)
  {
    hide NoDuplicates, OnSample, Serviced, Observe, CalibEffects, Prepared, TakeSample;
    InvOwned(sh);
    TakenRunner(fit, sh.calib.value, Prepared(sh, sh.calib.value, s, tick, world).1);
    SamplePasses(fit, sh, s, tick, world);
    InputIsBacked(Watched(sh, s), sh.calib.value, s, tick, world);
    var (r, batch) := Taken(fit, sh, s, tick, world);
    BatchBacked(Prepared(Watched(sh, s), sh.calib.value, s, tick, world).0.(calib := Some(r)), batch, world, bound);
  }

  /** Without a bound on the stamps. */
  lemma {:induction false} SampleStaysBacked(fit: StepTest.Fitter, sh: Shell, s: Sample, tick: Tick, world: World)
    requires Inv(sh) && sh.status.mode == Calibrating && Serviced(sh, s, world) && !Taken(fit, sh, s, tick, world).0.finished
    requires Backed(sh)
    ensures Backed(OnSample(fit, sh, s, tick, world).0)
  {
    hide Inv, OnSample, Serviced, Taken, Backed, StampedBy, RepliesBy;
    var bound := LatestStamp(sh, world);
    SampleBacked(fit, sh, s, tick, world, bound);
  }

  lemma {:induction false} LatestStamp(sh: Shell, world: World) returns (bound: real)
    ensures StampedBy(sh.evidence, bound) && RepliesBy(world, bound)
  {
    bound := MaxR(StepTest.OrElse(sh.evidence.cpuCompletedAt, 0.0), StepTest.OrElse(sh.evidence.gpuCompletedAt, 0.0));
    for i := 0 to |world.replies|
      invariant StampedBy(sh.evidence, bound)
      invariant forall j :: 0 <= j < i ==> world.replies[j].at <= bound
    {
      bound := MaxR(bound, world.replies[i].at);
    }
  }

  // ---- Every session ----

  lemma {:induction false} StartIsBacked(sh: Shell, c: Command, world: World)
    requires Inv(sh) && Starts(sh, c)
    ensures var sh' := OnCommand(sh, c, world).0;
            && sh'.status.mode == Calibrating && sh'.evidence == NO_EVIDENCE
            && sh'.calib == Some(Fresh(sh.saved.cpu, sh.saved.gpu).(started := true))
  {
    hide NoDuplicates;
  }

  lemma {:induction false} NextStaysBacked(fit: StepTest.Fitter, sh: Shell, e: Call)
    requires Inv(sh) && !(e.Commanded? && e.c.Quit?)
    requires sh.status.mode == Calibrating ==> Backed(sh)
    ensures Next(fit, sh, e).0.status.mode == Calibrating ==> Backed(Next(fit, sh, e).0)
  {
    hide Inv, OnCommand, OnSample, CapAnswered, Serviced, Taken, OnAbort, MonitorIsStock, Bare;
    InvOwned(sh);
    match e {
      case Commanded(c, world) =>
        if sh.status.mode == Calibrating {
          BusyCommand(sh, c, world);
        } else {
          IdleCommand(sh, c, world);
          if Starts(sh, c) {
            StartIsBacked(sh, c, world);
          }
        }
      case Ticked(s, tick, world) =>
        if world.down {
          FencedSample(fit, sh, s, tick, world);
        } else if !Serviced(sh, s, world) {
          TrippedSample(fit, sh, s, tick, world);
        } else if sh.status.mode == Calibrating {
          BusySample(fit, sh, s, tick, world);
          if !Taken(fit, sh, s, tick, world).0.finished {
            SampleStaysBacked(fit, sh, s, tick, world);
          }
        } else {
          QuietSample(fit, sh, s, tick, world);
        }
    }
  }

  lemma {:induction false} SessionsStayBacked(fit: StepTest.Fitter, saved: Saved, calls: seq<Call>)
    requires NoQuit(calls)
    ensures Session(fit, Booted(saved), calls).0.status.mode == Calibrating ==> Backed(Session(fit, Booted(saved), calls).0)
  {
    hide Next, Inv, Backed, Replay;
    if calls != [] {
      var front := calls[..|calls| - 1];
      SessionsStayBacked(fit, saved, front);
      SessionsAreSound(fit, saved, front);
      NextStaysBacked(fit, Session(fit, Booted(saved), front).0, calls[|calls| - 1]);
    }
  }

  /** In every session, every input the controller builds for the runner that
      calls a cap verified carries that cap's value. */
  lemma {:induction false} VerifiedCapsHaveValues(fit: StepTest.Fitter, saved: Saved, calls: seq<Call>, s: Sample, tick: Tick, world: World)
    requires NoQuit(calls) && Session(fit, Booted(saved), calls).0.status.mode == Calibrating
    ensures Session(fit, Booted(saved), calls).0.calib.Some?
    ensures var sh := Session(fit, Booted(saved), calls).0;
            var ctx := Prepared(sh, sh.calib.value, s, tick, world).1.ctx;
            (ctx.cpuVerified ==> ctx.cpuCap.Some?) && (ctx.gpuVerified ==> ctx.gpuCap.Some?)
  {
    hide Session, Inv, Backed, Prepared, Replay;
    SessionsAreSound(fit, saved, calls);
    SessionsStayBacked(fit, saved, calls);
    var sh := Session(fit, Booted(saved), calls).0;
    InvOwned(sh);
    InputIsBacked(sh, sh.calib.value, s, tick, world);
  }

  // ---- Every calibration ends ----

  /** The samples of a session that the fence let through. */
  function Unfenced(calls: seq<Call>): seq<Sample> {
    if calls == [] then []
    else
      var front := Unfenced(calls[..|calls| - 1]);
      match calls[|calls| - 1]
      case Ticked(s, _, world) => if world.down then front else front + [s]
      case Commanded(_, _) => front
  }

  /** The samples' clock jumps back or moves by at least a tick, and no write
      completes later than `lag` after its sample. */
  predicate FairCalls(calls: seq<Call>, tick: real, lag: real) {
    && (forall i :: 0 < i < |Unfenced(calls)| ==> Ending.Advances(Unfenced(calls)[i - 1].t, Finite(Unfenced(calls)[i].t), tick))
    && forall i :: 0 <= i < |calls| && calls[i].Ticked? && !calls[i].world.down ==> RepliesBy(calls[i].world, calls[i].s.t + lag)
  }

  /** Every return of the session is still calibrating. */
  ghost predicate StaysCalibrating(fit: StepTest.Fitter, start: Shell, calls: seq<Call>) {
    forall i: nat | i <= |calls| :: Session(fit, start, calls[..i]).0.status.mode == Calibrating
  }

  lemma {:induction false} StayedBefore(fit: StepTest.Fitter, start: Shell, calls: seq<Call>)
    requires calls != [] && StaysCalibrating(fit, start, calls)
    ensures StaysCalibrating(fit, start, calls[..|calls| - 1])
    ensures Session(fit, start, calls).0.status.mode == Calibrating
  {
    hide Session;
    var front := calls[..|calls| - 1];
    assert forall i: nat | i <= |front| :: calls[..i] == front[..i];
    assert calls[..|calls|] == calls;
  }

  lemma {:induction false} FairBefore(calls: seq<Call>, tick: real, lag: real)
    requires calls != [] && FairCalls(calls, tick, lag)
    ensures FairCalls(calls[..|calls| - 1], tick, lag)
  {
    hide Ending.Advances, RepliesBy;
    var front := calls[..|calls| - 1];
    assert forall i :: 0 <= i < |Unfenced(front)| ==> Unfenced(calls)[i] == Unfenced(front)[i];
    assert forall i :: 0 <= i < |front| ==> front[i] == calls[i];
  }

  /** The inputs the runner was given. */
  function Inputs(fit: StepTest.Fitter, start: Shell, calls: seq<Call>): seq<StepTest.Input> {
    if calls == [] then []
    else
      var front := calls[..|calls| - 1];
      var sh := Session(fit, start, front).0;
      match calls[|calls| - 1]
      case Ticked(s, tick, world) =>
        if world.down || sh.calib.None? then Inputs(fit, start, front)
        else Inputs(fit, start, front) + [Prepared(sh, sh.calib.value, s, tick, world).1]
      case Commanded(_, _) => Inputs(fit, start, front)
  }

  function LastTime(calls: seq<Call>): real {
    var samples := Unfenced(calls);
    if samples == [] then 0.0 else samples[|samples| - 1].t
  }

  /** A run under way follows the step test of its inputs, all of them honest
      and on time. */
  ghost predicate Following(fit: StepTest.Fitter, sh: Shell, calls: seq<Call>, inputs: seq<StepTest.Input>, tick: real, lag: real) {
    && Inv(sh) && Backed(sh) && sh.status.mode == Calibrating && sh.calib.Some?
    && sh.calib.value.step == StepTest.After(fit, inputs) && !Ending.Ends(fit, inputs)
    && |inputs| == |Unfenced(calls)|
    && (forall i :: 0 <= i < |inputs| ==> inputs[i].s.t == Finite(Unfenced(calls)[i].t))
    && Ending.Fair(inputs, tick, lag)
    && (if inputs == [] then sh.evidence.cpuCompletedAt.None? && sh.evidence.gpuCompletedAt.None? && sh.calib.value.step.lastAt.None?
        else StampedBy(sh.evidence, LastTime(calls) + lag) && sh.calib.value.step.lastAt == Some(LastTime(calls)))
  }

  lemma {:induction false} FairSnoc(inputs: seq<StepTest.Input>, x: StepTest.Input, tick: real, lag: real)
    requires Ending.Fair(inputs, tick, lag) && Ending.Honest(x, lag)
    requires inputs != [] && inputs[|inputs| - 1].s.t.Finite? ==> Ending.Advances(inputs[|inputs| - 1].s.t.v, x.s.t, tick)
    ensures Ending.Fair(inputs + [x], tick, lag)
  {
    hide Ending.Honest, Ending.Advances;
    var all := inputs + [x];
    assert forall i :: 0 <= i < |inputs| ==> all[i] == inputs[i];
  }

  /** A sample the runner takes without finishing is one step of the test, its
      clock did not jump back, and it is the last time seen. */
  lemma {:induction false} TakenOnTime(fit: StepTest.Fitter, r: RunState, x: StepTest.Input)
    requires r.started && !r.finished && !TakeSample(fit, r, x).0.finished && x.s.t.Finite?
    ensures var r' := TakeSample(fit, r, x).0;
            && r'.step == StepTest.Step(fit, r.step, x.s, x.ctx).0 && r'.step.sub != StepTest.Done
            && (r.step.lastAt.Some? ==> x.s.t.v >= r.step.lastAt.value)
            && r'.step.lastAt == Some(x.s.t.v)
  {
    hide StepTest.Timed, StepTest.Judge, Merge;
    StepHistory.StepKeepsStreak(fit, r.step, x);
    StepHistory.TimedCounts(r.step, x);
  }

  /** What a serviced sample that does not end the run does to it. */
  lemma {:induction false} RunGoesOn(fit: StepTest.Fitter, sh: Shell, s: Sample, tick: Tick, world: World)
    requires Inv(sh) && sh.status.mode == Calibrating && !world.down && OnSample(fit, sh, s, tick, world).0.status.mode == Calibrating
    ensures Serviced(sh, s, world) && sh.calib.Some? && sh.calib.value.started && !sh.calib.value.finished
    ensures var r := Taken(fit, sh, s, tick, world).0; !r.finished && OnSample(fit, sh, s, tick, world).0.calib == Some(r)
    ensures Inv(OnSample(fit, sh, s, tick, world).0)
  {
    hide NoDuplicates, OnSample, Serviced, Taken, CapAnswered, Sound;
    InvOwned(sh);
    SampleIsSound(fit, sh, s, tick, world);
    SoundKeepsInv(world.down, sh, OnSample(fit, sh, s, tick, world));
    if !Serviced(sh, s, world) {
      TrippedSample(fit, sh, s, tick, world);
      assert false;
    }
    BusySample(fit, sh, s, tick, world);
  }

  lemma {:induction false} FollowingSample(fit: StepTest.Fitter, sh: Shell, front: seq<Call>, inputs: seq<StepTest.Input>,
                                           s: Sample, tick: Tick, world: World, step: real, lag: real)
    requires step > 0.0 && lag >= 0.0 && !world.down
    requires Following(fit, sh, front, inputs, step, lag)
    requires FairCalls(front + [Ticked(s, tick, world)], step, lag)
    requires OnSample(fit, sh, s, tick, world).0.status.mode == Calibrating
    ensures Following(fit, OnSample(fit, sh, s, tick, world).0, front + [Ticked(s, tick, world)],
                      inputs + [Prepared(sh, sh.calib.value, s, tick, world).1], step, lag)
  {
    hide Inv, OnSample, Serviced, Prepared, TakeSample, StepTest.Step, StepTest.After, Ending.Ends, Ending.Fair, Backed, RepliesBy, StampedBy;
    var all := front + [Ticked(s, tick, world)];
    assert all[..|all| - 1] == front && all[|all| - 1] == Ticked(s, tick, world);
    var sh' := OnSample(fit, sh, s, tick, world).0;
    var x := Prepared(sh, sh.calib.value, s, tick, world).1;
    RunGoesOn(fit, sh, s, tick, world);
    InputIsBacked(sh, sh.calib.value, s, tick, world);
    TakenOnTime(fit, sh.calib.value, x);
    RunnerProofs.EndsLater(fit, inputs, x);
    LaterStamps(sh.evidence, LastTime(front) + lag, s.t + lag, inputs == []);
    SampleBacked(fit, sh, s, tick, world, s.t + lag);
    HonestInput(sh.evidence, x, s.t, lag);
    FairSnoc(inputs, x, step, lag) by {
      if inputs != [] {
        var n := |inputs|;
        assert Unfenced(all)[n - 1] == Unfenced(front)[n - 1] && Unfenced(all)[n] == s;
        assert Ending.Advances(Unfenced(all)[n - 1].t, Finite(Unfenced(all)[n].t), step);
      }
    }
    assert forall i :: 0 <= i < |inputs| ==> Unfenced(all)[i] == Unfenced(front)[i];
  }

  lemma {:induction false} LaterStamps(evidence: Evidence, bound: real, later: real, first: bool)
    requires if first then evidence.cpuCompletedAt.None? && evidence.gpuCompletedAt.None? else StampedBy(evidence, bound) && bound <= later
    ensures StampedBy(evidence, later)
  {
  }

  lemma {:induction false} HonestInput(evidence: Evidence, x: StepTest.Input, at: real, lag: real)
    requires StampedBy(evidence, at + lag) && x.s.t == Finite(at)
    requires x.ctx.cpuCompletedAt == evidence.cpuCompletedAt && x.ctx.gpuCompletedAt == evidence.gpuCompletedAt
    requires (x.ctx.cpuVerified ==> x.ctx.cpuCap.Some?) && (x.ctx.gpuVerified ==> x.ctx.gpuCap.Some?)
    ensures Ending.Honest(x, lag)
  {
  }

  /** While a started calibration lasts, its runner is the step test of the
      inputs built so far, and that test has not ended. */
  lemma {:induction false} RunFollowsTest(fit: StepTest.Fitter, start: Shell, calls: seq<Call>, step: real, lag: real)
    requires step > 0.0 && lag >= 0.0 && NoQuit(calls) && FairCalls(calls, step, lag)
    requires Inv(start) && start.status.mode == Calibrating && start.evidence == NO_EVIDENCE
    requires start.calib.Some? && start.calib.value.step == StepTest.INITIAL
    requires StaysCalibrating(fit, start, calls)
    ensures Following(fit, Session(fit, start, calls).0, calls, Inputs(fit, start, calls), step, lag)
  {
    hide Inv, Next, Following, FairCalls, StaysCalibrating;
    if calls == [] {
      FreshFollows(fit, start, step, lag);
    } else {
      var front, e := calls[..|calls| - 1], calls[|calls| - 1];
      assert calls == front + [e];
      StayedBefore(fit, start, calls);
      FairBefore(calls, step, lag);
      RunFollowsTest(fit, start, front, step, lag);
      FollowingCall(fit, Session(fit, start, front).0, front, Inputs(fit, start, front), e, step, lag);
    }
  }

  lemma {:induction false} FreshFollows(fit: StepTest.Fitter, start: Shell, step: real, lag: real)
    requires Inv(start) && start.status.mode == Calibrating && start.evidence == NO_EVIDENCE
    requires start.calib.Some? && start.calib.value.step == StepTest.INITIAL
    ensures Following(fit, start, [], [], step, lag)
  {
    hide Inv;
    RunnerProofs.NothingEnds(fit);
    hide Ending.Ends;
  }

  lemma {:induction false} FollowingCall(fit: StepTest.Fitter, sh: Shell, front: seq<Call>, inputs: seq<StepTest.Input>, e: Call, step: real, lag: real)
    requires step > 0.0 && lag >= 0.0 && !(e.Commanded? && e.c.Quit?)
    requires Following(fit, sh, front, inputs, step, lag) && FairCalls(front + [e], step, lag)
    requires Next(fit, sh, e).0.status.mode == Calibrating
    ensures Following(fit, Next(fit, sh, e).0, front + [e],
                      match e
                      case Ticked(s, tick, world) =>
                        if world.down || sh.calib.None? then inputs
                        else inputs + [Prepared(sh, sh.calib.value, s, tick, world).1]
                      case Commanded(_, _) => inputs,
                      step, lag)
  {
    hide FairCalls, Inv, OnSample, OnCommand, Prepared, CapAnswered, OnAbort;
    FollowingRuns(fit, sh, front, inputs, step, lag);
    match e {
      case Ticked(s, tick, world) =>
        if world.down {
          FencedSample(fit, sh, s, tick, world);
          FollowingIdles(fit, sh, front, inputs, e, step, lag);
        } else {
          FollowingSample(fit, sh, front, inputs, s, tick, world, step, lag);
        }
      case Commanded(c, world) =>
        BusyCommand(sh, c, world);
        FollowingIdles(fit, sh, front, inputs, e, step, lag);
    }
  }

  lemma {:induction false} FollowingRuns(fit: StepTest.Fitter, sh: Shell, calls: seq<Call>, inputs: seq<StepTest.Input>, step: real, lag: real)
    requires Following(fit, sh, calls, inputs, step, lag)
    ensures Inv(sh) && sh.status.mode == Calibrating && sh.calib.Some?
  {
    hide Inv, Ending.Ends, Ending.Fair, StepTest.After, StampedBy;
  }

  lemma {:induction false} FollowingIdles(fit: StepTest.Fitter, sh: Shell, front: seq<Call>, inputs: seq<StepTest.Input>, e: Call, step: real, lag: real)
    requires Following(fit, sh, front, inputs, step, lag) && (e.Ticked? ==> e.world.down)
    ensures Following(fit, sh, front + [e], inputs, step, lag)
  {
    hide Inv, Ending.Ends, Ending.Fair, StepTest.After, StampedBy, Backed;
    assert (front + [e])[..|front|] == front;
  }

  lemma {:induction false} LongRunLeaves(fit: StepTest.Fitter, start: Shell, calls: seq<Call>, step: real, lag: real)
    requires Inv(start) && start.status.mode == Calibrating && start.evidence == NO_EVIDENCE
    requires start.calib.Some? && start.calib.value.step == StepTest.INITIAL
    requires NoQuit(calls) && step > 0.0 && lag >= 0.0 && FairCalls(calls, step, lag)
    requires Unfenced(calls) != [] && (|Unfenced(calls)| - 1) as real * step >= 5.0 * Ending.FullBudget(step, lag)
    ensures !StaysCalibrating(fit, start, calls)
  {
    hide Inv, Session, FairCalls, Ending.Fair, Ending.FullBudget, Ending.Ends, Unfenced, Inputs, StaysCalibrating, Following;
    if StaysCalibrating(fit, start, calls) {
      RunFollowsTest(fit, start, calls, step, lag);
      FollowingTest(fit, Session(fit, start, calls).0, calls, Inputs(fit, start, calls), step, lag);
      Ending.CalibrationEnds(fit, Inputs(fit, start, calls), step, lag);
    }
  }

  /** Every calibration leaves Calibrating: from the command that starts one,
      any session whose unfenced samples tick for five full budgets of seconds
      has a return outside Calibrating. */
  lemma {:induction false} CalibrationAlwaysEnds(fit: StepTest.Fitter, sh: Shell, c: Command, world: World, calls: seq<Call>, step: real, lag: real)
    requires Inv(sh) && Starts(sh, c) && NoQuit(calls)
    requires step > 0.0 && lag >= 0.0 && FairCalls(calls, step, lag)
    requires Unfenced(calls) != [] && (|Unfenced(calls)| - 1) as real * step >= 5.0 * Ending.FullBudget(step, lag)
    ensures exists i: nat :: i <= |calls| && Session(fit, OnCommand(sh, c, world).0, calls[..i]).0.status.mode != Calibrating
  {
    hide Inv, Session, OnCommand, FairCalls, Ending.FullBudget, Unfenced, Sound, Starts, NoQuit;
    StartIsBacked(sh, c, world);
    StartedIsSound(sh, c, world);
    LongRunLeaves(fit, OnCommand(sh, c, world).0, calls, step, lag);
  }

  lemma {:induction false} StartedIsSound(sh: Shell, c: Command, world: World)
    requires Inv(sh) && Starts(sh, c)
    ensures Inv(OnCommand(sh, c, world).0)
  {
    hide Inv, OnCommand, Sound;
    CommandIsSound(sh, c, world);
    SoundKeepsInv(world.down, sh, OnCommand(sh, c, world));
  }

  lemma {:induction false} FollowingTest(fit: StepTest.Fitter, sh: Shell, calls: seq<Call>, inputs: seq<StepTest.Input>, step: real, lag: real)
    requires Following(fit, sh, calls, inputs, step, lag)
    ensures !Ending.Ends(fit, inputs) && Ending.Fair(inputs, step, lag) && |inputs| == |Unfenced(calls)|
  {
    hide Inv, Ending.Ends, Ending.Fair, StepTest.After, StampedBy, Unfenced;
  }

  // ---- The evidence a cap write leaves ----

  /** The last three of the commands. */
  function LastThree(commands: seq<G.Command>): seq<G.Command> {
    if |commands| <= 3 then commands else commands[|commands| - 3..]
  }

  /** A CPU cap write of a calibrating sample: whatever was verified before no
      longer is; a verified answer becomes the limit, stamped with its time; any
      other only counts as a check. */
  lemma {:induction false} CpuWriteEvidence(sh: Shell, w: real, reply: Reply, world: World)
    ensures var sh' := CalibEffect(sh, Machine(StepTest.SetCpu(w)), reply, true, world);
            var (before, after) := (sh.evidence, sh'.evidence);
            && (world.down ==> sh' == sh)
            && (!world.down ==>
                  && (after.cpuVerified <==> world.hasCpu && reply.cpu.Some?)
                  && after.cpuCheckedAt == (if world.hasCpu then Some(reply.at) else before.cpuCheckedAt)
                  && after.cpuCompletedAt == (if after.cpuVerified then Some(reply.at) else before.cpuCompletedAt)
                  && sh'.status.cpuLimit == (if after.cpuVerified then reply.cpu else sh.status.cpuLimit))
            && after.gpuCommands == before.gpuCommands && after.gpuCompletedAt == before.gpuCompletedAt
            && after.gpuStreak == before.gpuStreak && sh'.status.gpuMax == sh.status.gpuMax
  {
  }

  /** A GPU lock write of a calibrating sample: applied, it becomes the lock and
      the newest of the three commands that later readings are held to. */
  lemma {:induction false} GpuWriteEvidence(sh: Shell, mhz: nat, reply: Reply, world: World)
    ensures var sh' := CalibEffect(sh, Machine(StepTest.SetGpu(mhz)), reply, true, world);
            if !world.down && world.hasGpu && reply.gpu.Some? then
              && sh'.status.gpuMax == reply.gpu && sh'.evidence.gpuCompletedAt == Some(reply.at)
              && sh'.evidence.gpuCommands == LastThree(sh.evidence.gpuCommands + [G.Command(reply.gpu.value, reply.at)])
              && sh'.evidence.gpuStreak == sh.evidence.gpuStreak
              && sh'.evidence.cpuVerified == sh.evidence.cpuVerified && sh'.evidence.cpuCompletedAt == sh.evidence.cpuCompletedAt
            else sh'.evidence == sh.evidence && sh'.status == sh.status
  {
  }

  /** The runner is shown this sample's own readings and the configured limits,
      under the caps in force, and keeps the current caps exactly in Auto. */
  lemma {:induction false} RunnerSeesTheSample(sh: Shell, r: RunState, s: Sample, tick: Tick, world: World)
    ensures var (sh', x) := Prepared(sh, r, s, tick, world);
            && x.s == StepTest.Sample(Finite(s.t), tick.sense.fan, tick.sense.ecMax, s.gpuTemp, s.cpuTemp)
            && x.ctx.cpuCap == sh.status.cpuLimit && x.ctx.gpuCap == sh.status.gpuMax
            && x.ctx.useCurrentCaps == sh.fromAuto
            && x.ctx.cpuFloor == tick.limits.cpuFloor && x.ctx.gpuFloor == tick.limits.gpuFloor
            && x.ctx.cpuMax == tick.limits.cpuMax && x.ctx.gpuMax == tick.limits.gpuMax
            && x.ctx.cpuHot == tick.limits.cpuHot && x.ctx.gpuHot == tick.limits.gpuHot
            && x.ctx.cpuGroup == tick.sense.cpuGroup && x.ctx.gpuGroup == tick.sense.gpuGroup
            && x.ctx.fanctrlActive == tick.sense.fanctrlActive && x.ctx.ecMismatch == tick.sense.ecMismatch
            && x.ctx.argmaxControllable == tick.sense.argmaxControllable
            && x.ctx.strategy == tick.sense.strategy && x.ctx.maInterval == tick.sense.maInterval
  {
    hide GpuScore, CheckDue, TooHotToRepair;
  }

  // ---- The commands a reading is held to ----

  /** The GPU locks a batch applied, in order. */
  function Locks(effects: seq<RunnerEffect>, world: World): seq<G.Command> {
    if effects == [] then []
    else
      var n := |effects| - 1;
      var reply := ReplyAt(world, n);
      Locks(effects[..n], world)
      + if effects[n].Machine? && effects[n].e.SetGpu? && !world.down && world.hasGpu && reply.gpu.Some?
        then [G.Command(reply.gpu.value, reply.at)] else []
  }

  /** The GPU locks a calibration under way applied so far. */
  function LocksSince(fit: StepTest.Fitter, start: Shell, calls: seq<Call>): seq<G.Command> {
    if calls == [] then []
    else
      var front := calls[..|calls| - 1];
      var sh := Session(fit, start, front).0;
      match calls[|calls| - 1]
      case Ticked(s, tick, world) =>
        if world.down || sh.calib.None? then LocksSince(fit, start, front)
        else LocksSince(fit, start, front) + Locks(Taken(fit, sh, s, tick, world).1, world)
      case Commanded(_, _) => LocksSince(fit, start, front)
  }

  lemma {:induction false} EffectLocks(sh: Shell, e: RunnerEffect, reply: Reply, world: World)
    requires |sh.evidence.gpuCommands| <= 3
    ensures CalibEffect(sh, e, reply, true, world).evidence.gpuCommands ==
              LastThree(sh.evidence.gpuCommands
                        + if e.Machine? && e.e.SetGpu? && !world.down && world.hasGpu && reply.gpu.Some?
                          then [G.Command(reply.gpu.value, reply.at)] else [])
  {
    hide SyncFlag, CpuAnswered, GpuAnswered, StopBurner, LastThree;
    ShortIsKept(sh.evidence.gpuCommands);
    assert sh.evidence.gpuCommands + [] == sh.evidence.gpuCommands;
    match e {
      case SaveState(cpu, gpu) => SyncKeepsEvidence(sh.(saved := Saved(cpu, gpu)), NotCalibrated, !Calibrated(world.viewKey, cpu, gpu));
      case Finished =>
      case Machine(m) =>
        match m {
          case SetCpu(_) => CpuAnswerKeepsLocks(Issue(sh.(evidence := sh.evidence.(cpuVerified := false)), CapCpu), reply);
          case SetGpu(_) => GpuAnswerLocks(Issue(sh, CapGpu), reply);
          case StartBurner(_) => BurnerKeepsEvidence(sh);
          case StopBurner => BurnerKeepsEvidence(sh);
          case Fitted(_, _) =>
          case Noted =>
          case Retrying =>
        }
    }
  }

  lemma {:induction false} CpuAnswerKeepsLocks(sh: Shell, reply: Reply)
    ensures CpuAnswered(sh, reply, true).evidence.gpuCommands == sh.evidence.gpuCommands
  {
  }

  lemma {:induction false} GpuAnswerLocks(sh: Shell, reply: Reply)
    ensures GpuAnswered(sh, reply, true).evidence.gpuCommands ==
              if reply.gpu.Some? then LastThree(sh.evidence.gpuCommands + [G.Command(reply.gpu.value, reply.at)])
              else sh.evidence.gpuCommands
  {
  }

  lemma {:induction false} LastThreeOfMore(a: seq<G.Command>, b: seq<G.Command>)
    ensures LastThree(LastThree(a) + b) == LastThree(a + b) && |LastThree(a)| <= 3
  {
    if |a| > 3 {
      assert LastThree(a) + b == (a + b)[|a| - 3..];
    }
  }

  lemma {:induction false} BatchLocks(sh: Shell, effects: seq<RunnerEffect>, world: World)
    requires |sh.evidence.gpuCommands| <= 3
    ensures CalibEffects(sh, effects, true, world).evidence.gpuCommands == LastThree(sh.evidence.gpuCommands + Locks(effects, world))
    ensures |CalibEffects(sh, effects, true, world).evidence.gpuCommands| <= 3
  {
    hide CalibEffect, LastThree;
    var before := sh.evidence.gpuCommands;
    if effects == [] {
      assert LastThree(before + []) == before by { assert before + [] == before; ShortIsKept(before); }
    } else {
      var n := |effects| - 1;
      BatchLocks(sh, effects[..n], world);
      EffectLocks(CalibEffects(sh, effects[..n], true, world), effects[n], ReplyAt(world, n), world);
      var more := Locks(effects, world)[|Locks(effects[..n], world)|..];
      assert Locks(effects, world) == Locks(effects[..n], world) + more;
      LastThreeOfMore(before + Locks(effects[..n], world), more);
      assert before + Locks(effects[..n], world) + more == before + Locks(effects, world);
      LastThreeOfMore(before + Locks(effects, world), []);
    }
  }

  lemma {:induction false} ShortIsKept(s: seq<G.Command>)
    requires |s| <= 3
    ensures LastThree(s) == s
  {
  }

  /** The checks before the runner's sample keep the commands. */
  lemma {:induction false} PreparedKeepsLocks(sh: Shell, r: RunState, s: Sample, tick: Tick, world: World)
    ensures Prepared(sh, r, s, tick, world).0.evidence.gpuCommands == sh.evidence.gpuCommands
  {
    hide GpuScore, CheckDue, TooHotToRepair, CalibInput;
  }

  /** While a calibration lasts, every GPU reading is held to the last three of
      all the locks this run applied, and to no earlier one. */
  lemma {:induction false} ReadingsAreHeldToThisRun(fit: StepTest.Fitter, start: Shell, calls: seq<Call>)
    requires Inv(start) && start.status.mode == Calibrating && start.evidence == NO_EVIDENCE && NoQuit(calls)
    requires StaysCalibrating(fit, start, calls)
    ensures var sh := Session(fit, start, calls).0;
            Inv(sh) && sh.status.mode == Calibrating && sh.evidence.gpuCommands == LastThree(LocksSince(fit, start, calls))
  {
    hide Inv, Next, StaysCalibrating, Taken, LastThree;
    if calls == [] {
      ShortIsKept([]);
    } else {
      var front, e := calls[..|calls| - 1], calls[|calls| - 1];
      StayedBefore(fit, start, calls);
      ReadingsAreHeldToThisRun(fit, start, front);
      var sh := Session(fit, start, front).0;
      assert Next(fit, sh, e).0.status.mode == Calibrating;
      CallKeepsLocks(fit, sh, e, LocksSince(fit, start, front));
    }
  }

  lemma {:induction false} CallKeepsLocks(fit: StepTest.Fitter, sh: Shell, e: Call, locks: seq<G.Command>)
    requires Inv(sh) && sh.status.mode == Calibrating && sh.evidence.gpuCommands == LastThree(locks)
    requires Next(fit, sh, e).0.status.mode == Calibrating && !(e.Commanded? && e.c.Quit?)
    ensures sh.calib.Some? && Inv(Next(fit, sh, e).0)
    ensures Next(fit, sh, e).0.evidence.gpuCommands ==
              LastThree(match e
                        case Ticked(s, tick, world) => if world.down then locks else locks + Locks(Taken(fit, sh, s, tick, world).1, world)
                        case Commanded(_, _) => locks)
  {
    hide Inv, OnCommand, OnSample, Taken, CapAnswered, OnAbort, Prepared, CalibEffects, LastThree;
    InvOwned(sh);
    match e {
      case Commanded(c, world) => BusyCommand(sh, c, world);
      case Ticked(s, tick, world) =>
        if world.down {
          FencedSample(fit, sh, s, tick, world);
        } else {
          RunGoesOn(fit, sh, s, tick, world);
          var (r, batch) := Taken(fit, sh, s, tick, world);
          var sh1 := Prepared(Watched(sh, s), sh.calib.value, s, tick, world).0;
          UnfinishedBatch(fit, sh, s, tick, world);
          SamplePasses(fit, sh, s, tick, world);
          PreparedKeepsLocks(Watched(sh, s), sh.calib.value, s, tick, world);
          LastThreeOfMore(locks, Locks(batch, world));
          BatchLocks(sh1.(calib := Some(r)), batch, world);
        }
    }
  }

  lemma {:induction false} UnfinishedBatch(fit: StepTest.Fitter, sh: Shell, s: Sample, tick: Tick, world: World)
    requires sh.calib.Some? && sh.calib.value.started && !sh.calib.value.finished && !Taken(fit, sh, s, tick, world).0.finished
    ensures Finished !in Taken(fit, sh, s, tick, world).1
  {
    hide Prepared, TakeSample;
    TakenRunner(fit, sh.calib.value, Prepared(sh, sh.calib.value, s, tick, world).1);
  }
}
