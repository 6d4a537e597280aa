/**
 * The combined CPU+GPU benchmark script (benchmark_test.py): a simpler power
 * estimator without correction factor or battery term, the choice of the
 * discrete GPU by largest memory, a GPU-load reader that never fails, and a
 * benchmark loop that tracks three running maxima.
 */
module Benchmark {
  import opened Wrappers
  import opened Maxima

  const BaseIdle: real := 10.0
  /** The script's own constants, never changed by it. */
  const MaxCpuPower: real := 30.0
  const MaxGpuPower: real := 40.0

  /**
   * `estimate_power(cpu_load, gpu_load)`: idle draw plus the two load shares.
   * For non-negative loads it is at least the idle draw.
   */
  function EstimatePower(cpuLoad: real, gpuLoad: Option<real>): (watts: real)
    ensures 0.0 <= cpuLoad && 0.0 <= OrZero(gpuLoad) ==> watts >= BaseIdle
  {
    BaseIdle + cpuLoad / 100.0 * MaxCpuPower + OrZero(gpuLoad) / 100.0 * MaxGpuPower
  }

  /** The estimate never falls when either load rises. */
  lemma EstimateMonotone(c1: real, c2: real, g1: Option<real>, g2: Option<real>)
    requires c1 <= c2 && OrZero(g1) <= OrZero(g2)
    ensures EstimatePower(c1, g1) <= EstimatePower(c2, g2)
  {
  }

  /** Idle machine: 10 W; both loads at 100 %: 80 W; a missing GPU load is 0 %. */
  lemma EstimateEndpoints()
    ensures EstimatePower(0.0, None) == EstimatePower(0.0, Some(0.0)) == 10.0
    ensures EstimatePower(100.0, Some(100.0)) == 80.0
  {
  }

  /** What NVML offers the script: whether it initialised and the total memory of each device in index order. */
  datatype GpuSystem = GpuSystem(available: bool, memoryTotals: seq<int>)

  /**
   * The device a `get_discrete_gpu_index` result is allowed to be: the
   * earliest device whose total strictly exceeds every earlier total and is
   * not exceeded by any later one, or 0 when no total is positive.
   */
  predicate IsDiscreteChoice(totals: seq<int>, index: int) {
    if forall j :: 0 <= j < |totals| ==> totals[j] <= 0 then index == 0
    else
      && 0 <= index < |totals|
      && totals[index] > 0
      && (forall j :: 0 <= j < index ==> totals[j] < totals[index])
      && (forall j :: index < j < |totals| ==> totals[j] <= totals[index])
  }

  /** The choice is unique: the contract of `DiscreteGpuIndex` fixes its result. */
  lemma DiscreteChoiceUnique(totals: seq<int>, a: int, b: int)
    requires IsDiscreteChoice(totals, a) && IsDiscreteChoice(totals, b)
    ensures a == b
  {
  }

  /**
   * `get_discrete_gpu_index()`: `None` without NVML; otherwise the index of
   * the strictly largest memory total, the earliest on ties, starting from
   * index 0 with a maximum of 0.
   */
  method DiscreteGpuIndex(gpu: GpuSystem) returns (index: Option<int>)
    ensures index.None? <==> !gpu.available
    ensures index.Some? ==> IsDiscreteChoice(gpu.memoryTotals, index.value)
  {
    if !gpu.available {
      return None;
    }
    var totals := gpu.memoryTotals;
    var maxMem := 0;
    var discrete := 0;
    var i := 0;
    while i < |totals|
      invariant 0 <= i <= |totals|
      invariant (forall j :: 0 <= j < i ==> totals[j] <= 0) ==> discrete == 0 && maxMem == 0
      invariant (exists j :: 0 <= j < i && totals[j] > 0) ==>
                  && 0 <= discrete < i
                  && maxMem == totals[discrete] > 0
                  && (forall j :: 0 <= j < discrete ==> totals[j] < maxMem)
                  && (forall j :: discrete < j < i ==> totals[j] <= maxMem)
    {
      if totals[i] > maxMem {
        maxMem := totals[i];
        discrete := i;
      }
      i := i + 1;
    }
    index := Some(discrete);
  }

  /**
   * `get_gpu_load(discrete_gpu_index)`, the definition that shadows the
   * earlier one: 0 without NVML or when the read raises, a `None` index
   * meaning device 0.
   */
  function GetGpuLoad(available: bool, index: Option<int>, utilization: map<int, real>): (load: real)
    ensures load != 0.0 ==> available && index.GetOr(0) in utilization && load == utilization[index.GetOr(0)]
    ensures available && index.GetOr(0) in utilization ==> load == utilization[index.GetOr(0)]
  {
    if !available then 0.0
    else
      var i := index.GetOr(0);
      if i in utilization then utilization[i] else 0.0
  }

  /** No index and index 0 read the same device. */
  lemma NoIndexMeansDeviceZero(available: bool, utilization: map<int, real>)
    ensures GetGpuLoad(available, None, utilization) == GetGpuLoad(available, Some(0), utilization)
  {
  }

  /**
   * One benchmark iteration: `psutil.cpu_percent(interval=1)` and, per device
   * index, the utilisation an NVML read returns (an index missing from the map
   * makes the read raise).
   */
  datatype CombinedTick = CombinedTick(cpuLoad: real, utilization: map<int, real>)

  function CpuLoads(ticks: seq<CombinedTick>): (loads: seq<real>)
    ensures |loads| == |ticks|
    ensures forall i :: 0 <= i < |ticks| ==> loads[i] == ticks[i].cpuLoad
  {
    seq(|ticks|, i requires 0 <= i < |ticks| => ticks[i].cpuLoad)
  }

  function GpuLoads(ticks: seq<CombinedTick>, available: bool, index: int): (loads: seq<real>)
    ensures |loads| == |ticks|
    ensures forall i :: 0 <= i < |ticks| ==> loads[i] == GetGpuLoad(available, Some(index), ticks[i].utilization)
  {
    seq(|ticks|, i requires 0 <= i < |ticks| => GetGpuLoad(available, Some(index), ticks[i].utilization))
  }

  function Powers(ticks: seq<CombinedTick>, available: bool, index: int): (ps: seq<real>)
    ensures |ps| == |ticks|
    ensures forall i :: 0 <= i < |ticks| ==>
              ps[i] == EstimatePower(ticks[i].cpuLoad, Some(GetGpuLoad(available, Some(index), ticks[i].utilization)))
  {
    seq(|ticks|, i requires 0 <= i < |ticks| =>
      EstimatePower(ticks[i].cpuLoad, Some(GetGpuLoad(available, Some(index), ticks[i].utilization))))
  }

  /**
   * `benchmark_combined`: pick the discrete GPU (device 0 when there is no
   * NVML), then over the iterations keep the largest CPU load, GPU load and
   * estimate. Each maximum is at least 0 and every sample, and is 0 or one of
   * the samples. The source only prints the maxima; they are returned here,
   * with the device the loads were read from.
   */
  method BenchmarkCombined(gpu: GpuSystem, ticks: seq<CombinedTick>)
    returns (device: int, maxCpuLoad: real, maxGpuLoad: real, maxPower: real)
    ensures gpu.available ==> IsDiscreteChoice(gpu.memoryTotals, device)
    ensures !gpu.available ==> device == 0
    ensures maxCpuLoad == Max0(CpuLoads(ticks))
    ensures maxGpuLoad == Max0(GpuLoads(ticks, gpu.available, device))
    ensures maxPower == Max0(Powers(ticks, gpu.available, device))
  {
    var chosen := DiscreteGpuIndex(gpu);
    device := if chosen.None? then 0 else chosen.value;
    ghost var cpus := CpuLoads(ticks);
    ghost var gpus := GpuLoads(ticks, gpu.available, device);
    ghost var powers := Powers(ticks, gpu.available, device);
    maxCpuLoad, maxGpuLoad, maxPower := 0.0, 0.0, 0.0;
    var i := 0;
    while i < |ticks|
      invariant 0 <= i <= |ticks|
      invariant maxCpuLoad == Max0(cpus[..i])
      invariant maxGpuLoad == Max0(gpus[..i])
      invariant maxPower == Max0(powers[..i])
    {
      var cpuLoad := ticks[i].cpuLoad;
      var gpuLoad := GetGpuLoad(gpu.available, Some(device), ticks[i].utilization);
      var power := EstimatePower(cpuLoad, Some(gpuLoad));
      Max0Step(cpus, i, maxCpuLoad);
      Max0Step(gpus, i, maxGpuLoad);
      Max0Step(powers, i, maxPower);
      if cpuLoad > maxCpuLoad {
        maxCpuLoad := cpuLoad;
      }
      if gpuLoad > maxGpuLoad {
        maxGpuLoad := gpuLoad;
      }
      if power > maxPower {
        maxPower := power;
      }
      i := i + 1;
    }
    assert cpus[..i] == cpus && gpus[..i] == gpus && powers[..i] == powers;
  }
}
