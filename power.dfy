/**
 * The power estimator of the monitor (`estimate_power` in main.py) and the
 * battery reading it depends on (`get_battery_info`).
 *
 * The estimate is a linear approximation, not a measurement: an idle draw,
 * a CPU share of the calibrated CPU constant, the GPU watts and a charging
 * penalty, scaled by an empirical correction factor. Arithmetic is over
 * `real` (exact), not IEEE doubles.
 */
module Power {
  import opened Wrappers

  const BaseIdle: real := 10.0
  const ChargingPenalty: real := 5.0
  const Correction: real := 1.2
  /** The CPU constant before any calibration (`max_cpu_power_global = 30`). */
  const DefaultMaxCpuPower: real := 30.0
  /** The GPU constant, fixed and never calibrated (`max_gpu_power_global = 40`). */
  const MaxGpuPower: real := 40.0

  /**
   * The status strings the estimator can receive: the six labels of the
   * status map and the "No Battery" callers substitute without a battery.
   */
  datatype BatteryStatus = Unknown | Charging | Discharging | NotInUse | Standby | Hibernating | NoBattery {
    /** The string the source stores and compares. */
    function Text(): string {
      match this
      case Unknown => "Desconocido"
      case Charging => "Cargando"
      case Discharging => "Descargando"
      case NotInUse => "No en uso"
      case Standby => "En espera"
      case Hibernating => "Hibernando"
      case NoBattery => "No Battery"
    }
  }

  /** Distinct statuses have distinct strings, so comparing strings is comparing statuses. */
  lemma StatusTextInjective(a: BatteryStatus, b: BatteryStatus)
    requires a != b
    ensures a.Text() != b.Text()
  {
    assert a.Text()[0] != b.Text()[0] || |a.Text()| != |b.Text()| || a.Text()[4] != b.Text()[4];
  }

  /** One `Win32_Battery` instance, as WMI reports it; WMI may leave any of these properties null. */
  datatype BatteryReading = BatteryReading(statusCode: Option<int>, chargeRemaining: Option<int>, runTime: Option<int>)

  /** The dictionary `get_battery_info` returns. */
  datatype BatteryInfo = BatteryInfo(status: BatteryStatus, charge: Option<int>, runTime: Option<int>)

  /**
   * The status map with its "Desconocido" default: codes 1 to 6 name the six
   * fixed states, every other code is unknown; "No Battery" never comes from it.
   */
  function StatusOf(code: int): (status: BatteryStatus)
    ensures status != NoBattery
    ensures status == Charging <==> code == 2
    ensures status == Unknown <==> (code < 2 || code > 6)
  {
    match code
    case 1 => Unknown
    case 2 => Charging
    case 3 => Discharging
    case 4 => NotInUse
    case 5 => Standby
    case 6 => Hibernating
    case _ => Unknown
  }

  /** Distinct codes in 2..6 give distinct statuses: the map loses nothing but "unknown". */
  lemma StatusOfInjective(a: int, b: int)
    requires 2 <= a <= 6 && 2 <= b <= 6 && a != b
    ensures StatusOf(a) != StatusOf(b)
  {
  }

  /** `get_battery_info`: `None` without batteries, else the first battery's reading. */
  function GetBatteryInfo(batteries: seq<BatteryReading>): (r: Option<BatteryInfo>)
    ensures r.None? <==> batteries == []
    ensures r.Some? ==> r.value.status != NoBattery
  {
    if batteries == [] then None
    else
      var b := batteries[0];
      var status := match b.statusCode case Some(code) => StatusOf(code) case None => Unknown;
      Some(BatteryInfo(status, b.chargeRemaining, b.runTime))
  }

  /** Only the first battery is read; any further ones are ignored. */
  lemma FirstBatteryOnly(batteries: seq<BatteryReading>, others: seq<BatteryReading>)
    requires batteries != []
    ensures GetBatteryInfo(batteries) == GetBatteryInfo([batteries[0]] + others)
  {
  }

  /** `(get_battery_info() or {"status": "No Battery", ...})["status"]`. */
  function StatusOrNoBattery(info: Option<BatteryInfo>): BatteryStatus {
    match info
    case None => NoBattery
    case Some(b) => b.status
  }

  function BatteryPenalty(status: BatteryStatus): real {
    if status == Charging then ChargingPenalty else 0.0
  }

  /**
   * The GPU term: a measured wattage (including 0) is used as it is; only
   * when there is none is the load (or 0) scaled by the GPU constant.
   * `gpuUsage` is what `get_gpu_usage()` returns when the fallback reads it.
   */
  function GpuWatts(gpuPowerWatts: Option<real>, gpuUsage: Option<real>): real {
    match gpuPowerWatts
    case Some(w) => w
    case None => OrZero(gpuUsage) / 100.0 * MaxGpuPower
  }

  /**
   * `estimate_power(cpu_load, gpu_power_watts, battery_status)` with the global
   * CPU constant and the fallback GPU reading made parameters.
   */
  function EstimatePower(cpuLoad: real, gpuPowerWatts: Option<real>, batteryStatus: BatteryStatus,
                         maxCpuPower: real, gpuUsage: Option<real>): real
  {
    var cpuPower := cpuLoad / 100.0 * maxCpuPower;
    var power := BaseIdle + cpuPower + GpuWatts(gpuPowerWatts, gpuUsage) + BatteryPenalty(batteryStatus);
    power * Correction
  }

  /**
   * For non-negative loads, constant and GPU watts the estimate is at least
   * the corrected idle draw, 12 W, and at least 18 W while charging.
   */
  lemma EstimateLowerBound(cpuLoad: real, gpuPowerWatts: Option<real>, batteryStatus: BatteryStatus,
                           maxCpuPower: real, gpuUsage: Option<real>)
    requires 0.0 <= cpuLoad && 0.0 <= maxCpuPower && 0.0 <= GpuWatts(gpuPowerWatts, gpuUsage)
    ensures EstimatePower(cpuLoad, gpuPowerWatts, batteryStatus, maxCpuPower, gpuUsage)
            >= Correction * (BaseIdle + BatteryPenalty(batteryStatus))
  {
    assert 0.0 <= cpuLoad / 100.0 * maxCpuPower;
  }

  /** Charging adds the 5 W penalty, exactly 6 W after the 1.2 correction, and only "Cargando" does; "No Battery" gets none. */
  lemma ChargingAddsPenalty(cpuLoad: real, gpuPowerWatts: Option<real>, status: BatteryStatus,
                            maxCpuPower: real, gpuUsage: Option<real>)
    requires status != Charging
    ensures EstimatePower(cpuLoad, gpuPowerWatts, Charging, maxCpuPower, gpuUsage)
            == EstimatePower(cpuLoad, gpuPowerWatts, status, maxCpuPower, gpuUsage) + 6.0
    ensures EstimatePower(cpuLoad, gpuPowerWatts, status, maxCpuPower, gpuUsage)
            == EstimatePower(cpuLoad, gpuPowerWatts, NoBattery, maxCpuPower, gpuUsage)
  {
  }

  /** A measured GPU wattage always wins over the load-derived one. */
  lemma MeasuredGpuPowerWins(cpuLoad: real, w: real, status: BatteryStatus, maxCpuPower: real,
                             u1: Option<real>, u2: Option<real>)
    ensures EstimatePower(cpuLoad, Some(w), status, maxCpuPower, u1)
            == EstimatePower(cpuLoad, Some(w), status, maxCpuPower, u2)
    ensures EstimatePower(cpuLoad, Some(w), status, maxCpuPower, u1)
            == EstimatePower(cpuLoad, Some(0.0), status, maxCpuPower, u1) + Correction * w
  {
  }

  /** Without a wattage, a missing load counts as 0 % GPU. */
  lemma MissingGpuLoadIsZero(cpuLoad: real, status: BatteryStatus, maxCpuPower: real)
    ensures EstimatePower(cpuLoad, None, status, maxCpuPower, None)
            == EstimatePower(cpuLoad, None, status, maxCpuPower, Some(0.0))
            == EstimatePower(cpuLoad, Some(0.0), status, maxCpuPower, None)
  {
  }

  /** More CPU load never lowers the estimate while the CPU constant is non-negative. */
  lemma EstimateMonotoneInCpu(c1: real, c2: real, g: Option<real>, status: BatteryStatus,
                              maxCpuPower: real, u: Option<real>)
    requires c1 <= c2 && 0.0 <= maxCpuPower
    ensures EstimatePower(c1, g, status, maxCpuPower, u) <= EstimatePower(c2, g, status, maxCpuPower, u)
  {
    var d := (c2 - c1) / 100.0;
    assert 0.0 <= d * maxCpuPower;
    assert c2 / 100.0 * maxCpuPower == c1 / 100.0 * maxCpuPower + d * maxCpuPower;
  }

  /** Three worked values: half CPU load discharging, idle charging, idle discharging. */
  lemma WorkedEstimates()
    ensures EstimatePower(50.0, None, Discharging, 30.0, Some(0.0)) == 30.0
    ensures EstimatePower(0.0, Some(0.0), Charging, 30.0, None) == 18.0
    ensures EstimatePower(0.0, Some(0.0), Discharging, 30.0, None) == 12.0
  {
  }

  /** The penalty applies iff a battery exists and its status code is 2 (a null code is unknown). */
  lemma PenaltyIffChargingCode(batteries: seq<BatteryReading>)
    ensures BatteryPenalty(StatusOrNoBattery(GetBatteryInfo(batteries))) == ChargingPenalty
            <==> batteries != [] && batteries[0].statusCode == Some(2)
  {
  }
}
