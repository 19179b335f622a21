/** The clipped trace comes out of the step test itself: a run that settles,
    steps the CPU and records exactly that response. */
module ClippedRun {
  import opened Prelude
  import opened StepTest
  import LS = LeastSquares
  import FP = FopdtProofs
  import Ending = StepTermination

  /** The i-th second of the response: the stepped cap verified since the write
      completed, and the group temperature of the exact model. */
  function Responding(exp: real -> real, i: nat): Input {
    Input(Ending.Calm(62.0 + i as real),
          Ending.CAPS.(cpuCap := Some(35.0), cpuCompletedAt := Some(62.0), cpuGroup := Some(Finite(FP.ModelPoint(exp, i as real).y))))
  }

  /** Three settling samples, then the first n seconds of the response. */
  function RunOf(exp: real -> real, n: nat): (run: seq<Input>)
    ensures |run| == n + 3
  {
    if n == 0 then [Ending.StallInput(0), Ending.StallInput(1), Ending.StallInput(2)]
    else RunOf(exp, n - 1) + [Responding(exp, n - 1)]
  }

  /** n seconds into the response, with its samples recorded. */
  predicate Collected(exp: real -> real, st: State, n: nat) {
    && 0 < n <= FP.TRACE_N
    && st.initialized && st.sub == CpuStep && st.appliedCpu == Some(35.0) && st.commandedAt == Some(62.0)
    && st.lastAt == Some(61.0 + n as real) && st.responseLast == Some(61.0 + n as real)
    && st.key == Some(Key("quiet16", 60)) && st.hotStreak == 0 && st.baseCpu == 20.0 && st.baseGpu == 1000
    && st.primary == FP.ClippedTrace(exp)[..n]
  }

  lemma {:induction false} SettledRun(fit: Fitter, exp: real -> real)
    ensures Ending.Waiting(After(fit, RunOf(exp, 0)), 61.0)
  {
    hide Step, Ending.Waiting, Ending.StallInput;
    var run := RunOf(exp, 0);
    assert run[..2] == [run[0], run[1]];
    Ending.AfterTwo(fit, run[0], run[1]);
    Ending.StallSettled(fit);
  }

  lemma {:induction false} FirstSecond(fit: Fitter, exp: real -> real, st: State)
    requires Ending.Waiting(st, 61.0)
    ensures Collected(exp, Step(fit, st, Responding(exp, 0).s, Responding(exp, 0).ctx).0, 1)
  {
    hide FP.ModelPoint, FP.ClippedTrace, ObserveAll, Conclude;
    assert FP.ClippedTrace(exp)[..1] == [FP.ModelPoint(exp, 0.0)];
    TimeOf(exp, 0.0);
  }

  lemma {:induction false} TimeOf(exp: real -> real, t: real)
    ensures FP.ModelPoint(exp, t).t == t
  {
  }

  lemma {:induction false} NextSecond(fit: Fitter, exp: real -> real, st: State, n: nat)
    requires Collected(exp, st, n) && n < 360
    ensures Collected(exp, Step(fit, st, Responding(exp, n).s, Responding(exp, n).ctx).0, n + 1)
  {
    hide FP.ModelPoint, FP.ClippedTrace, ObserveAll, Conclude;
    assert FP.ClippedTrace(exp)[..n + 1] == FP.ClippedTrace(exp)[..n] + [FP.ModelPoint(exp, n as real)];
    TimeOf(exp, n as real);
  }

  lemma {:induction false} RunCollects(fit: Fitter, exp: real -> real, n: nat)
    requires 0 < n <= 360
    ensures Collected(exp, After(fit, RunOf(exp, n)), n)
  {
    hide Step, Collected, Ending.Waiting, Responding;
    assert RunOf(exp, n)[..n + 2] == RunOf(exp, n - 1);
    if n == 1 {
      SettledRun(fit, exp);
      FirstSecond(fit, exp, After(fit, RunOf(exp, 0)));
    } else {
      RunCollects(fit, exp, n - 1);
      NextSecond(fit, exp, After(fit, RunOf(exp, n - 1)), n - 1);
    }
  }

  /** What the test reports of the trace: the pair is put back, then the gains
      fitted to it, or a note. */
  function Reported(fit: Fitter, trace: seq<LS.Point>): seq<Effect> {
    [SetCpu(20.0), SetGpu(1000),
     match fit(Cpu, trace, 15.0, 60)
     case Some(gains) => Fitted(Cpu, gains)
     case None => Noted]
  }

  lemma {:induction false} LastSecond(fit: Fitter, exp: real -> real, st: State)
    requires Collected(exp, st, 360)
    ensures Step(fit, st, Responding(exp, 360).s, Responding(exp, 360).ctx).1 == Reported(fit, FP.ClippedTrace(exp))
  {
    hide FP.ModelPoint, FP.ClippedTrace, ObserveAll;
    assert FP.ClippedTrace(exp) == FP.ClippedTrace(exp)[..360] + [FP.ModelPoint(exp, 360.0)];
    TimeOf(exp, 360.0);
  }

  /** The step test hands exactly this trace to identification, with the step
      of 15 W it was taken under. */
  lemma {:induction false} ClippedTraceIsRecorded(fit: Fitter, exp: real -> real)
    ensures EffectsAt(fit, RunOf(exp, 361), 363) == Reported(fit, FP.ClippedTrace(exp))
  {
    hide Step, Collected, Responding, After;
    assert RunOf(exp, 361)[..363] == RunOf(exp, 360);
    RunCollects(fit, exp, 360);
    LastSecond(fit, exp, After(fit, RunOf(exp, 360)));
  }
}
