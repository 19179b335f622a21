/** Identification of a device from its response: the fit, then gains against
    the device's own defaults. This is the fitter the step test is run with. */
module Identify {
  import opened Prelude
  import opened StepTest
  import LS = LeastSquares
  import F = Fopdt
  import FP = FopdtProofs

  const CPU_TAU_S := 35.0
  const CPU_PLANT_GAIN := 0.8
  const CPU_BASE_DELAY_S := 20.0
  const GPU_TAU_S := 32.564086253945035
  const GPU_PLANT_GAIN := 0.009527650224779704
  const GPU_BASE_DELAY_S := 8.45154292954405

  /** The documented plant of a device, delayed by half the moving average. */
  function DefaultPlant(device: Device, interval: nat): F.Model {
    match device
    case Cpu => F.Model(CPU_PLANT_GAIN, CPU_TAU_S, CPU_BASE_DELAY_S + interval as real / 2.0)
    case Gpu => F.Model(GPU_PLANT_GAIN, GPU_TAU_S, GPU_BASE_DELAY_S + interval as real / 2.0)
  }

  function DefaultGains(device: Device, interval: nat): F.Gains {
    var plant := DefaultPlant(device, interval);
    F.Gains(F.Kc(plant), plant.tau)
  }

  lemma {:induction false} DefaultsAreTuned(device: Device, interval: nat)
    ensures var d, plant := DefaultGains(device, interval), DefaultPlant(device, interval);
            && d.kc > 0.0
            && d.ti == plant.tau && FP.ImcTuned(d.kc, plant)
  {
    FP.KcIsTuned(DefaultPlant(device, interval));
    hide F.Kc;
  }

  function GainsFrom(exp: real -> real, device: Device, trace: seq<LS.Point>, step: real, interval: nat): F.Result<F.Gains> {
    match F.Fit(exp, trace, Finite(step), F.MIN_EC_RESPONSE_C)
    case Err(why) => F.Err(why)
    case Ok(model) =>
      FP.AcceptedFitIsBestOnTheGrid(exp, trace, Finite(step), F.MIN_EC_RESPONSE_C);
      DefaultsAreTuned(device, interval);
      F.DeriveGains(model, DefaultGains(device, interval))
  }

  function Identifier(exp: real -> real): Fitter {
    (device: Device, trace: seq<LS.Point>, step: real, interval: nat) =>
      match GainsFrom(exp, device, trace, step, interval)
      case Err(_) => None
      case Ok(gains) => Some(gains)
  }

  /** Identified gains obey the tuning rule on a physical model that moved the
      temperature by at least three degrees, and stay within a factor of four
      of the defaults. */
  lemma {:induction false} IdentifiedGainsAreTuned(exp: real -> real, device: Device, trace: seq<LS.Point>, step: real, interval: nat)
    requires Identifier(exp)(device, trace, step, interval).Some?
    ensures var gains := Identifier(exp)(device, trace, step, interval).value;
            var kd := DefaultGains(device, interval).kc;
            && F.KC_RATIO_LO * kd <= gains.kc <= F.KC_RATIO_HI * kd
            && F.Fit(exp, trace, Finite(step), F.MIN_EC_RESPONSE_C).Ok?
            && var m := F.Fit(exp, trace, Finite(step), F.MIN_EC_RESPONSE_C).value;
               && m.k > 0.0 && m.theta >= 0.0 && AbsR(m.k * step) >= F.MIN_EC_RESPONSE_C
               && gains.ti == m.tau >= F.MIN_TAU_S
               && FP.ImcTuned(gains.kc, m)
  {
    hide F.Fit, DefaultGains, F.Kc, F.InBand, F.SearchTrace, FP.ImcTuned;
    FP.AcceptedFitIsBestOnTheGrid(exp, trace, Finite(step), F.MIN_EC_RESPONSE_C);
    DefaultsAreTuned(device, interval);
    FP.DerivedGainsAreTuned(F.Fit(exp, trace, Finite(step), F.MIN_EC_RESPONSE_C).value, DefaultGains(device, interval));
  }

  /** Neither the order of the samples nor a constant added to every
      temperature changes the identification. */
  lemma {:induction false} IdentificationIgnoresOrderAndOffset(exp: real -> real, device: Device, s: seq<LS.Point>, t: seq<LS.Point>,
                                                               shift: real, step: real, interval: nat)
    requires multiset(s) == multiset(t)
    ensures GainsFrom(exp, device, LS.Rescale(t, 1.0, shift), step, interval) == GainsFrom(exp, device, s, step, interval)
  {
    hide F.Fit, F.DeriveGains, LS.Rescale, DefaultGains;
    FP.FitIgnoresOrder(exp, s, t, Finite(step), F.MIN_EC_RESPONSE_C);
    FP.FitIgnoresOffset(exp, t, Finite(step), F.MIN_EC_RESPONSE_C, shift);
  }
}
