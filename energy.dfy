/**
 * The sensor script energy_test.py: from the hardware tree of a hardware
 * monitor, take the first CPU power and CPU load readings, or every CPU
 * temperature, and sample power and load a fixed number of times.
 */
module Energy {
  import opened Wrappers
  import opened Text

  /** The `HardwareType` value of a CPU. */
  const CpuHardware: int := 0
  const Duration: int := 60
  const Interval: int := 5

  /** A sensor: its name and its value, which the monitor may leave null. */
  datatype Sensor = Sensor(name: string, value: Option<real>)

  /** A hardware node and its sensors, in the order the monitor lists them. */
  datatype Hardware = Hardware(hardwareType: int, sensors: seq<Sensor>)

  /** The sensors the scans look at: those of CPU hardware, hardware by hardware. */
  function CpuSensors(hws: seq<Hardware>): seq<Sensor> {
    if hws == [] then []
    else
      var last := hws[|hws| - 1];
      CpuSensors(hws[..|hws| - 1]) + (if last.hardwareType == CpuHardware then last.sensors else [])
  }

  /** Every scanned sensor belongs to a CPU hardware node. */
  lemma {:induction false} CpuSensorsOnlyCpu(hws: seq<Hardware>)
    ensures forall s :: s in CpuSensors(hws) ==>
              exists h :: h in hws && h.hardwareType == CpuHardware && s in h.sensors
  {
    if hws != [] {
      var init := hws[..|hws| - 1];
      CpuSensorsOnlyCpu(init);
      assert forall h :: h in init ==> h in hws;
    }
  }

  /** Hardware of any other type adds nothing to the scanned sensors. */
  lemma NonCpuHardwareIgnored(hws: seq<Hardware>, h: Hardware)
    requires h.hardwareType != CpuHardware
    ensures CpuSensors(hws + [h]) == CpuSensors(hws)
  {
    assert (hws + [h])[..|hws|] == hws;
  }

  /** Scanning one more hardware node extends the scanned sensors by its own, if it is a CPU. */
  lemma CpuSensorsStep(hws: seq<Hardware>, i: int)
    requires 0 <= i < |hws|
    ensures CpuSensors(hws[..i + 1]) ==
            CpuSensors(hws[..i]) + (if hws[i].hardwareType == CpuHardware then hws[i].sensors else [])
  {
    assert hws[..i + 1][..i] == hws[..i];
  }

  lemma SliceStep(done: seq<Sensor>, xs: seq<Sensor>, j: int)
    requires 0 <= j < |xs|
    ensures done + xs[..j + 1] == (done + xs[..j]) + [xs[j]]
  {
    assert xs[..j + 1] == xs[..j] + [xs[j]];
  }

  datatype Quantity = PowerQuantity | LoadQuantity

  /** Name tests of `extract_cpu_power_load`, on the lower-cased name. */
  predicate Measures(s: Sensor, q: Quantity) {
    var name := Lower(s.name);
    match q
    case PowerQuantity => Contains(name, "power")
    case LoadQuantity => Contains(name, "load") || Contains(name, "usage")
  }

  /**
   * The value the scan keeps for `q`: it is taken from the first matching
   * sensor while still `None`, so a matching sensor whose value is null lets
   * a later one set it.
   */
  function FirstValue(ss: seq<Sensor>, q: Quantity): Option<real> {
    if ss == [] then None
    else
      var r := FirstValue(ss[..|ss| - 1], q);
      var last := ss[|ss| - 1];
      if r.Some? then r else if Measures(last, q) then last.value else None
  }

  /** The result stays `None` exactly when no matching sensor has a value. */
  lemma {:induction false} FirstValueNone(ss: seq<Sensor>, q: Quantity)
    ensures FirstValue(ss, q).None? <==> forall i :: 0 <= i < |ss| && Measures(ss[i], q) ==> ss[i].value.None?
  {
    if ss != [] {
      var init := ss[..|ss| - 1];
      FirstValueNone(init, q);
      assert forall i :: 0 <= i < |ss| - 1 ==> ss[i] == init[i];
    }
  }

  /** One more sensor: it can only set a value that is still missing. */
  lemma FirstValueStep(ss: seq<Sensor>, s: Sensor, q: Quantity)
    ensures FirstValue(ss + [s], q) ==
            if FirstValue(ss, q).Some? then FirstValue(ss, q) else if Measures(s, q) then s.value else None
  {
    assert (ss + [s])[..|ss|] == ss;
  }

  /**
   * The first matching sensor with a value decides; later matches never
   * overwrite it.
   */
  lemma {:induction false} FirstValueAt(ss: seq<Sensor>, q: Quantity, k: int)
    requires 0 <= k < |ss| && Measures(ss[k], q) && ss[k].value.Some?
    requires forall j :: 0 <= j < k ==> !Measures(ss[j], q) || ss[j].value.None?
    ensures FirstValue(ss, q) == ss[k].value
  {
    if k < |ss| - 1 {
      FirstValueAt(ss[..|ss| - 1], q, k);
    } else {
      var init := ss[..|ss| - 1];
      assert forall j :: 0 <= j < |init| ==> init[j] == ss[j];
      FirstValueNone(init, q);
    }
  }

  /** A sensor whose name mentions both power and load sets both results. */
  lemma OneSensorSetsBoth(s: Sensor)
    requires Contains(Lower(s.name), "power") && Contains(Lower(s.name), "load")
    ensures FirstValue([s], PowerQuantity) == FirstValue([s], LoadQuantity) == s.value
  {
    assert [s][..0] == [];
  }

  /**
   * `extract_cpu_power_load(hardware_list)`: the two nested loops over CPU
   * hardware and its sensors, each result assigned only while still `None`.
   */
  method ExtractCpuPowerLoad(hws: seq<Hardware>) returns (cpuPower: Option<real>, cpuLoad: Option<real>)
    ensures cpuPower == FirstValue(CpuSensors(hws), PowerQuantity)
    ensures cpuLoad == FirstValue(CpuSensors(hws), LoadQuantity)
  {
    cpuPower, cpuLoad := None, None;
    var i := 0;
    while i < |hws|
      invariant 0 <= i <= |hws|
      invariant cpuPower == FirstValue(CpuSensors(hws[..i]), PowerQuantity)
      invariant cpuLoad == FirstValue(CpuSensors(hws[..i]), LoadQuantity)
    {
      var hw := hws[i];
      ghost var done := CpuSensors(hws[..i]);
      CpuSensorsStep(hws, i);
      if hw.hardwareType == CpuHardware {
        var j := 0;
        assert done + hw.sensors[..0] == done;
        while j < |hw.sensors|
          invariant 0 <= j <= |hw.sensors|
          invariant cpuPower == FirstValue(done + hw.sensors[..j], PowerQuantity)
          invariant cpuLoad == FirstValue(done + hw.sensors[..j], LoadQuantity)
        {
          var sensor := hw.sensors[j];
          var name := Lower(sensor.name);
          SliceStep(done, hw.sensors, j);
          FirstValueStep(done + hw.sensors[..j], sensor, PowerQuantity);
          FirstValueStep(done + hw.sensors[..j], sensor, LoadQuantity);
          if Contains(name, "power") && cpuPower.None? {
            cpuPower := sensor.value;
          }
          if (Contains(name, "load") || Contains(name, "usage")) && cpuLoad.None? {
            cpuLoad := sensor.value;
          }
          j := j + 1;
        }
        assert hw.sensors[..j] == hw.sensors;
      } else {
        assert done + [] == done;
      }
      i := i + 1;
    }
    assert hws[..i] == hws;
  }

  /** The name test of `extract_cpu_temp`. */
  predicate IsTemperature(s: Sensor) {
    Contains(Lower(s.name), "temp") || Contains(Lower(s.name), "temperature")
  }

  /** The "temperature" test adds nothing: every such name already contains "temp". */
  lemma TemperatureTestRedundant(s: Sensor)
    ensures IsTemperature(s) <==> Contains(Lower(s.name), "temp")
  {
    if Contains(Lower(s.name), "temperature") {
      ContainsPrefix(Lower(s.name), "temperature", "temp");
    }
  }

  /** The values of the temperature sensors among `ss`, in order, null values included. */
  function TempValues(ss: seq<Sensor>): (vs: seq<Option<real>>)
    ensures |vs| <= |ss|
  {
    if ss == [] then []
    else
      var last := ss[|ss| - 1];
      TempValues(ss[..|ss| - 1]) + (if IsTemperature(last) then [last.value] else [])
  }

  /** Every collected value is the value of a temperature sensor among `ss`. */
  lemma {:induction false} TempValuesFromTemperatureSensors(ss: seq<Sensor>)
    ensures forall v :: v in TempValues(ss) ==> exists s :: s in ss && IsTemperature(s) && s.value == v
  {
    if ss != [] {
      var init := ss[..|ss| - 1];
      TempValuesFromTemperatureSensors(init);
      assert forall s :: s in init ==> s in ss;
    }
  }

  lemma TempValuesStep(ss: seq<Sensor>, s: Sensor)
    ensures TempValues(ss + [s]) == TempValues(ss) + (if IsTemperature(s) then [s.value] else [])
  {
    assert (ss + [s])[..|ss|] == ss;
  }

  /** `extract_cpu_temp(hardware_list)`: appends the value of every CPU temperature sensor. */
  method ExtractCpuTemp(hws: seq<Hardware>) returns (temps: seq<Option<real>>)
    ensures temps == TempValues(CpuSensors(hws))
    ensures |temps| <= |CpuSensors(hws)|
  {
    temps := [];
    var i := 0;
    while i < |hws|
      invariant 0 <= i <= |hws|
      invariant temps == TempValues(CpuSensors(hws[..i]))
    {
      var hw := hws[i];
      ghost var done := CpuSensors(hws[..i]);
      CpuSensorsStep(hws, i);
      if hw.hardwareType == CpuHardware {
        var j := 0;
        assert done + hw.sensors[..0] == done;
        while j < |hw.sensors|
          invariant 0 <= j <= |hw.sensors|
          invariant temps == TempValues(done + hw.sensors[..j])
        {
          var sensor := hw.sensors[j];
          SliceStep(done, hw.sensors, j);
          TempValuesStep(done + hw.sensors[..j], sensor);
          if Contains(Lower(sensor.name), "temp") || Contains(Lower(sensor.name), "temperature") {
            temps := temps + [sensor.value];
          }
          j := j + 1;
        }
        assert hw.sensors[..j] == hw.sensors;
      } else {
        assert done + [] == done;
      }
      i := i + 1;
    }
    assert hws[..i] == hws;
  }

  /** What the monitor reports at one iteration, after the update pass, and the clock. */
  datatype Snapshot = Snapshot(timestamp: string, hardware: seq<Hardware>)

  /** One row of `cpu_power_monitor.csv`. */
  datatype PowerRecord = PowerRecord(timestamp: string, cpuPowerWatts: Option<real>, cpuLoadPercent: Option<real>)

  /**
   * The sampling loop of `main`: `duration // interval` iterations (12), one
   * record each, built from the sensors as they read at that iteration
   * (`readAt(k)`). Both constants are positive, where Dafny's `/` and
   * Python's `//` agree.
   */
  method SampleCpuPower(readAt: nat -> Snapshot) returns (records: seq<PowerRecord>)
    ensures |records| == Duration / Interval == 12
    ensures forall k :: 0 <= k < |records| ==>
              records[k] == PowerRecord(readAt(k).timestamp,
                                        FirstValue(CpuSensors(readAt(k).hardware), PowerQuantity),
                                        FirstValue(CpuSensors(readAt(k).hardware), LoadQuantity))
  {
    var iterations := Duration / Interval;
    records := [];
    for k := 0 to iterations
      invariant |records| == k
      invariant forall m :: 0 <= m < k ==>
                  records[m] == PowerRecord(readAt(m).timestamp,
                                            FirstValue(CpuSensors(readAt(m).hardware), PowerQuantity),
                                            FirstValue(CpuSensors(readAt(m).hardware), LoadQuantity))
    {
      var snapshot := readAt(k);
      var cpuPower, cpuLoad := ExtractCpuPowerLoad(snapshot.hardware);
      records := records + [PowerRecord(snapshot.timestamp, cpuPower, cpuLoad)];
    }
  }
}
