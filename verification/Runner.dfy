/** The calibration runner: drives one step test, merges accepted gains into
    the keyed maps and saves them once when the test is done. */
module Runner {
  import opened Prelude
  import opened StepTest
  import StepTestMachine
  import F = Fopdt

  type GainMap = map<Key, F.Gains>

  datatype RunnerEffect = Machine(e: Effect) | SaveState(cpuGains: GainMap, gpuGains: GainMap) | Finished

  datatype RunState = RunState(step: State, cpuGains: GainMap, gpuGains: GainMap, started: bool, finished: bool)

  /** What the controller does to a runner. */
  datatype Event = Start | Sampled(x: Input) | Aborted

  function Wrap(effects: seq<Effect>): (r: seq<RunnerEffect>)
    ensures |r| == |effects| && forall i :: 0 <= i < |r| ==> r[i] == Machine(effects[i])
  {
    seq(|effects|, i requires 0 <= i < |effects| => Machine(effects[i]))
  }

  /** The device's map after the fits among the effects, under the step's key. */
  function Merge(device: Device, key: Option<Key>, effects: seq<Effect>, gains: GainMap): GainMap {
    if effects == [] then gains
    else
      var merged := Merge(device, key, effects[..|effects| - 1], gains);
      match effects[|effects| - 1]
      case Fitted(d, g) => if d == device && key.Some? then merged[key.value := g] else merged
      case _ => merged
  }

  function TakeSample(fit: Fitter, r: RunState, x: Input): (RunState, seq<RunnerEffect>) {
    if !r.started || r.finished then (r, [])
    else
      var (step, effects) := Step(fit, r.step, x.s, x.ctx);
      var cpu, gpu := Merge(Cpu, step.key, effects, r.cpuGains), Merge(Gpu, step.key, effects, r.gpuGains);
      var r' := RunState(step, cpu, gpu, r.started, r.finished || step.sub == Done);
      (r', Wrap(effects) + if step.sub == Done then [SaveState(cpu, gpu), Finished] else [])
  }

  function OnAbort(r: RunState): (RunState, seq<RunnerEffect>) {
    if r.finished then (r, [])
    else
      var (step, effects) := Abort(r.step);
      (r.(step := step, finished := true), Wrap(effects))
  }

  function OnEvent(fit: Fitter, r: RunState, e: Event): (RunState, seq<RunnerEffect>) {
    match e
    case Start => (r.(started := true), [])
    case Sampled(x) => TakeSample(fit, r, x)
    case Aborted => OnAbort(r)
  }

  function Fresh(cpuGains: GainMap, gpuGains: GainMap): RunState {
    RunState(INITIAL, cpuGains, gpuGains, false, false)
  }

  /** State and all effects so far after a run of events. */
  function Run(fit: Fitter, start: RunState, events: seq<Event>): (RunState, seq<RunnerEffect>) {
    if events == [] then (start, [])
    else
      var (r, emitted) := Run(fit, start, events[..|events| - 1]);
      var (r', more) := OnEvent(fit, r, events[|events| - 1]);
      (r', emitted + more)
  }

  class PerDeviceCalibRunner {
    const step: StepTestMachine.PerDeviceStepTest
    var cpuGains: GainMap
    var gpuGains: GainMap
    var started: bool
    var finished: bool

    ghost function Abs(): RunState
      reads this, step
    {
      RunState(step.Abs(), cpuGains, gpuGains, started, finished)
    }

    constructor (fit: Fitter, cpuGains: GainMap, gpuGains: GainMap)
      ensures fresh(step) && step.fit == fit
      ensures Abs() == Fresh(cpuGains, gpuGains)
    {
      step := new StepTestMachine.PerDeviceStepTest(fit);
      this.cpuGains, this.gpuGains := cpuGains, gpuGains;
      started, finished := false, false;
    }

    method Start()
      modifies this`started
      ensures Abs() == old(Abs()).(started := true)
    {
      started := true;
    }

    /** Takes every fit among the effects into its device's map. */
    method MergeFits(effects: seq<Effect>)
      modifies this`cpuGains, this`gpuGains
      ensures cpuGains == Merge(Cpu, step.key, effects, old(cpuGains))
      ensures gpuGains == Merge(Gpu, step.key, effects, old(gpuGains))
    {
      for i := 0 to |effects|
        invariant cpuGains == Merge(Cpu, step.key, effects[..i], old(cpuGains))
        invariant gpuGains == Merge(Gpu, step.key, effects[..i], old(gpuGains))
      {
        assert effects[..i + 1][..i] == effects[..i];
        match effects[i] {
          case Fitted(device, gains) =>
            if step.key.Some? {
              if device == Cpu {
                cpuGains := cpuGains[step.key.value := gains];
              } else {
                gpuGains := gpuGains[step.key.value := gains];
              }
            }
          case _ =>
        }
      }
      assert effects[..|effects|] == effects;
    }

    method OnSample(x: Input) returns (effects: seq<RunnerEffect>)
      modifies this, step
      ensures Abs() == TakeSample(step.fit, old(Abs()), x).0
      ensures effects == TakeSample(step.fit, old(Abs()), x).1
    {
      hide Step, Merge, Wrap;
      if !started || finished {
        return [];
      }
      var taken := step.OnSample(x.s, x.ctx);
      MergeFits(taken);
      effects := Wrap(taken);
      if step.sub == Done {
        finished := true;
        effects := effects + [SaveState(cpuGains, gpuGains), Finished];
      }
    }

    method AbortWithReason() returns (effects: seq<RunnerEffect>)
      modifies this, step
      ensures Abs() == OnAbort(old(Abs())).0
      ensures effects == OnAbort(old(Abs())).1
    {
      hide Wrap, Abort;
      if finished {
        return [];
      }
      finished := true;
      var taken := step.AbortRun();
      return Wrap(taken);
    }
  }
}
