/**
 * The CPU calibration of main.py (`benchmark_cpu`): while a CPU stress
 * workload runs, sample the CPU and GPU load and the battery, estimate the
 * power with the current constant, track the largest CPU load and the largest
 * estimate, and finally overwrite the global CPU constant with that largest
 * estimate (a power figure that already contains the idle, GPU and battery
 * terms).
 */
module Calibration {
  import opened Wrappers
  import opened Power
  import opened Maxima

  /** The process-wide CPU constant `max_cpu_power_global`, the one value the calibration rewrites. */
  class PowerConstants {
    var maxCpuPower: real

    constructor ()
      ensures maxCpuPower == DefaultMaxCpuPower
    {
      maxCpuPower := DefaultMaxCpuPower;
    }
  }

  /**
   * The readings of one calibration tick: `get_cpu_usage()`, `get_gpu_usage()`
   * (`None` without an NVIDIA GPU) and the WMI battery list.
   */
  datatype CalibrationTick = CalibrationTick(cpuLoad: real, gpuUsage: Option<real>, batteries: seq<BatteryReading>)

  /**
   * The estimate of one tick: `gpu = get_gpu_usage() or 0` is never `None`,
   * so it is passed as the GPU wattage and the fallback reading is never made.
   */
  function TickEstimate(t: CalibrationTick, maxCpuPower: real): real {
    EstimatePower(t.cpuLoad, Some(OrZero(t.gpuUsage)), StatusOrNoBattery(GetBatteryInfo(t.batteries)), maxCpuPower, None)
  }

  /** The estimates of a run, every one made with the same constant. */
  function TickEstimates(ticks: seq<CalibrationTick>, maxCpuPower: real): (es: seq<real>)
    ensures |es| == |ticks|
    ensures forall i :: 0 <= i < |ticks| ==> es[i] == TickEstimate(ticks[i], maxCpuPower)
  {
    seq(|ticks|, i requires 0 <= i < |ticks| => TickEstimate(ticks[i], maxCpuPower))
  }

  function CpuLoads(ticks: seq<CalibrationTick>): (loads: seq<real>)
    ensures |loads| == |ticks|
    ensures forall i :: 0 <= i < |ticks| ==> loads[i] == ticks[i].cpuLoad
  {
    seq(|ticks|, i requires 0 <= i < |ticks| => ticks[i].cpuLoad)
  }

  /**
   * The GPU load percentage enters the calibration estimate as if it were
   * watts: each load point adds 1.2 W instead of the 0.48 W the GPU constant
   * would give.
   */
  lemma GpuLoadCountedAsWatts(t: CalibrationTick, maxCpuPower: real)
    ensures TickEstimate(t, maxCpuPower)
            == TickEstimate(t.(gpuUsage := None), maxCpuPower) + Correction * OrZero(t.gpuUsage)
  {
  }

  /**
   * `benchmark_cpu`: `ticks` are the loop's iterations (as many as fit in the
   * duration). Afterwards the CPU constant is the largest estimate made with
   * the old constant, or 0 when the loop never ran; the largest CPU load
   * (only printed by the source) is returned.
   */
  method BenchmarkCpu(constants: PowerConstants, ticks: seq<CalibrationTick>) returns (maxCpuLoad: real)
    modifies constants
    ensures constants.maxCpuPower == Max0(TickEstimates(ticks, old(constants.maxCpuPower)))
    ensures maxCpuLoad == Max0(CpuLoads(ticks))
  {
    ghost var loads := CpuLoads(ticks);
    ghost var estimates := TickEstimates(ticks, constants.maxCpuPower);
    maxCpuLoad := 0.0;
    var maxPower := 0.0;
    var i := 0;
    while i < |ticks|
      invariant 0 <= i <= |ticks|
      invariant constants.maxCpuPower == old(constants.maxCpuPower)
      invariant maxCpuLoad == Max0(loads[..i])
      invariant maxPower == Max0(estimates[..i])
    {
      var t := ticks[i];
      var power := TickEstimate(t, constants.maxCpuPower);
      Max0Step(loads, i, maxCpuLoad);
      Max0Step(estimates, i, maxPower);
      if t.cpuLoad > maxCpuLoad {
        maxCpuLoad := t.cpuLoad;
      }
      if power > maxPower {
        maxPower := power;
      }
      i := i + 1;
    }
    assert loads[..i] == loads;
    assert estimates[..i] == estimates;
    constants.maxCpuPower := maxPower;
  }

  /**
   * What the calibration promises about the new constant: never negative, at
   * least every estimate of the run, and either 0 (no tick) or one of them.
   */
  lemma CalibratedConstantBounds(ticks: seq<CalibrationTick>, previous: real)
    ensures var c := Max0(TickEstimates(ticks, previous));
            0.0 <= c
            && (forall i :: 0 <= i < |ticks| ==> TickEstimate(ticks[i], previous) <= c)
            && (c == 0.0 || exists i :: 0 <= i < |ticks| && TickEstimate(ticks[i], previous) == c)
            && (ticks == [] ==> c == 0.0)
  {
    var es := TickEstimates(ticks, previous);
    Max0Bounds(es);
    if Max0(es) != 0.0 {
      var i :| 0 <= i < |es| && es[i] == Max0(es);
    }
  }
}
