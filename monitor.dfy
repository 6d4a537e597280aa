/**
 * The monitoring session of main.py (`main_monitor`,
 * `save_constants_and_summary` and the `__main__` sequence).
 *
 * Each tick turns the sensor readings into a record and appends it to a
 * buffer; a buffer that reaches the chunk size is posted and replaced by an
 * empty one, and a non-empty rest is posted after the loop. Because the
 * buffer is reset, the CSV and the summary written at the end see only the
 * records of the last, incomplete chunk, not the whole session.
 */
module Monitor {
  import opened Wrappers
  import opened Power
  import opened Network
  import opened Calibration
  import opened Maxima

  /** The interval the summary assumes, whatever interval the loop actually slept. */
  const SummaryInterval: int := 5
  /** The chunk size `__main__` passes to `main_monitor`. */
  const DefaultChunkSize: int := 10

  /** What NVML reports in one tick when a GPU is present: power in milliwatts and utilisation. */
  datatype GpuTick = GpuTick(powerMilliwatts: real, load: real)

  /** One `(sensor.Name, sensor.Value)` pair of `get_temperature`. */
  datatype TempSample = TempSample(name: string, value: real)

  /**
   * The readings one tick makes: clock, WMI batteries, `get_cpu_usage()`, the
   * GPU (`None` when NVML is unavailable, which makes both GPU reads `None`),
   * the temperature sensors, the interfaces and the `netsh` output lines.
   */
  datatype MonitorTick = MonitorTick(
    timestamp: string,
    batteries: seq<BatteryReading>,
    cpuLoad: real,
    gpu: Option<GpuTick>,
    temperatures: seq<TempSample>,
    interfaces: seq<NetInterface>,
    netsh: Option<seq<string>>)

  /** The dictionary built per tick. */
  datatype Record = Record(
    timestamp: string,
    batteryStatus: BatteryStatus,
    batteryCharge: Option<int>,
    batteryRunTime: Option<int>,
    cpuUsage: real,
    gpuUsage: Option<real>,
    gpuPowerWatts: Option<real>,
    powerEstimatedWatts: real,
    temperatureSamples: seq<TempSample>,
    networkConnection: string)

  /** `get_gpu_power_watts()`: milliwatts over 1000, or `None` without a GPU. */
  function GpuPowerWatts(t: MonitorTick): Option<real> {
    match t.gpu
    case Some(g) => Some(g.powerMilliwatts / 1000.0)
    case None => None
  }

  /** `get_gpu_usage()`: the utilisation, or `None` without a GPU. */
  function GpuUsage(t: MonitorTick): Option<real> {
    match t.gpu
    case Some(g) => Some(g.load)
    case None => None
  }

  /** The record of one tick, estimated with the CPU constant `maxCpuPower`. */
  function MakeRecord(t: MonitorTick, maxCpuPower: real): Record {
    var battery := GetBatteryInfo(t.batteries);
    var status := StatusOrNoBattery(battery);
    Record(
      t.timestamp,
      status,
      if battery.Some? then battery.value.charge else None,
      if battery.Some? then battery.value.runTime else None,
      t.cpuLoad,
      GpuUsage(t),
      GpuPowerWatts(t),
      EstimatePower(t.cpuLoad, GpuPowerWatts(t), status, maxCpuPower, GpuUsage(t)),
      t.temperatures[..if |t.temperatures| < 3 then |t.temperatures| else 3],
      ActiveNetwork(t.interfaces, t.netsh))
  }

  /**
   * In the monitor the load-derived GPU fallback never contributes: the GPU
   * term is the measured wattage when NVML works and 0 when it does not.
   */
  lemma MonitorGpuTerm(t: MonitorTick, maxCpuPower: real)
    ensures var r := MakeRecord(t, maxCpuPower);
            r.powerEstimatedWatts
            == Correction * (BaseIdle + t.cpuLoad / 100.0 * maxCpuPower
                             + (if t.gpu.Some? then t.gpu.value.powerMilliwatts / 1000.0 else 0.0)
                             + BatteryPenalty(r.batteryStatus))
    ensures MakeRecord(t, maxCpuPower).temperatureSamples <= t.temperatures
    ensures |MakeRecord(t, maxCpuPower).temperatureSamples| == if |t.temperatures| < 3 then |t.temperatures| else 3
  {
  }

  /**
   * The battery columns of a record: all three come from the first WMI
   * battery, nulls passed through and a null status read as unknown; without
   * a battery the status is "No Battery" and charge and run time are missing.
   */
  lemma RecordBattery(t: MonitorTick, maxCpuPower: real)
    ensures var r := MakeRecord(t, maxCpuPower);
            && (r.batteryStatus == NoBattery <==> t.batteries == [])
            && (t.batteries == [] ==> r.batteryCharge.None? && r.batteryRunTime.None?)
            && (t.batteries != [] ==>
                  var b := t.batteries[0];
                  && (b.statusCode.Some? ==> r.batteryStatus == StatusOf(b.statusCode.value))
                  && (b.statusCode.None? ==> r.batteryStatus == Unknown)
                  && r.batteryCharge == b.chargeRemaining
                  && r.batteryRunTime == b.runTime)
  {
  }

  /** The records a session of `ticks` produces, in tick order. */
  function Records(ticks: seq<MonitorTick>, maxCpuPower: real): (rs: seq<Record>)
    ensures |rs| == |ticks|
    ensures forall i :: 0 <= i < |ticks| ==> rs[i] == MakeRecord(ticks[i], maxCpuPower)
  {
    seq(|ticks|, i requires 0 <= i < |ticks| => MakeRecord(ticks[i], maxCpuPower))
  }

  /**
   * The size at which the buffer is posted: `len(data_records) >= chunk_size`
   * holds after every append when `chunk_size` is below 1, so such sizes act as 1.
   */
  function EffectiveChunk(chunkSize: int): (cs: int)
    ensures cs >= 1
    ensures chunkSize >= 1 ==> cs == chunkSize
  {
    if chunkSize < 1 then 1 else chunkSize
  }

  /** The chunks posted inside the loop: consecutive runs of exactly `cs` records. */
  function FullChunks(rs: seq<Record>, cs: int): seq<seq<Record>>
    requires cs >= 1
    decreases |rs|
  {
    if |rs| < cs then [] else [rs[..cs]] + FullChunks(rs[cs..], cs)
  }

  /** The buffer left when the loop ends: what follows the last full chunk. */
  function Remainder(rs: seq<Record>, cs: int): seq<Record>
    requires cs >= 1
    decreases |rs|
  {
    if |rs| < cs then rs else Remainder(rs[cs..], cs)
  }

  function Flatten(chunks: seq<seq<Record>>): seq<Record> {
    if chunks == [] then [] else chunks[0] + Flatten(chunks[1..])
  }

  lemma FlattenAppend(a: seq<seq<Record>>, b: seq<seq<Record>>)
    ensures Flatten(a + b) == Flatten(a) + Flatten(b)
  {
    if a == [] {
      assert a + b == b;
    } else {
      assert a + b != [] && (a + b)[0] == a[0] && (a + b)[1..] == a[1..] + b;
      FlattenAppend(a[1..], b);
    }
  }

  /**
   * Full chunks and remainder partition the records: every full chunk holds
   * exactly `cs` records, the remainder fewer than `cs`, and together, in
   * order, they are all the records.
   */
  lemma {:induction false} ChunksPartition(rs: seq<Record>, cs: int)
    requires cs >= 1
    ensures Flatten(FullChunks(rs, cs)) + Remainder(rs, cs) == rs
    ensures forall k :: 0 <= k < |FullChunks(rs, cs)| ==> |FullChunks(rs, cs)[k]| == cs
    ensures |Remainder(rs, cs)| < cs
    decreases |rs|
  {
    if |rs| >= cs {
      ChunksPartition(rs[cs..], cs);
      assert rs == rs[..cs] + rs[cs..];
      var tail := FullChunks(rs[cs..], cs);
      assert FullChunks(rs, cs) == [rs[..cs]] + tail;
      assert forall k :: 1 <= k < |FullChunks(rs, cs)| ==> FullChunks(rs, cs)[k] == tail[k - 1];
    }
  }

  /**
   * The remainder is the last `|rs| mod cs` records; it is empty exactly when
   * the number of records is a multiple of the chunk size.
   */
  lemma {:induction false} RemainderIsLastModChunk(rs: seq<Record>, cs: int)
    requires cs >= 1
    ensures |Remainder(rs, cs)| == |rs| % cs
    ensures Remainder(rs, cs) == rs[|rs| - |rs| % cs..]
    ensures Remainder(rs, cs) == [] <==> |rs| % cs == 0
    ensures |FullChunks(rs, cs)| == |rs| / cs
    decreases |rs|
  {
    if |rs| >= cs {
      RemainderIsLastModChunk(rs[cs..], cs);
      assert |rs[cs..]| == |rs| - cs;
      ModStep(|rs|, cs);
      assert rs[cs..][|rs[cs..]| - |rs| % cs..] == rs[|rs| - |rs| % cs..];
    } else {
      DivModUnique(|rs|, cs, 0, |rs|);
    }
  }

  /** Taking one chunk off keeps the remainder and lowers the quotient by one. */
  lemma ModStep(n: int, d: int)
    requires n >= d >= 1
    ensures (n - d) % d == n % d && (n - d) / d == n / d - 1
  {
    DivModUnique(n, d, (n - d) / d + 1, (n - d) % d);
  }

  /** Quotient and remainder are the only pair that rebuilds `n` with `0 <= r < d`. */
  lemma DivModUnique(n: int, d: int, q: int, r: int)
    requires d > 0 && 0 <= r < d && n == q * d + r
    ensures n / d == q && n % d == r
  {
    var q', r' := n / d, n % d;
    var k := q' - q;
    assert k * d == q' * d - q * d == r - r';
    if k >= 1 {
      MulAtLeast(k, d);
      assert false;
    } else if k <= -1 {
      MulAtLeast(-k, d);
      assert false;
    }
  }

  lemma {:induction false} MulAtLeast(k: int, d: int)
    requires k >= 1 && d >= 1
    ensures k * d >= d
    decreases k
  {
    if k > 1 {
      MulAtLeast(k - 1, d);
      assert k * d == (k - 1) * d + d;
    }
  }

  /** How one appended record moves the buffer and the posted chunks. */
  lemma {:induction false} ChunksAppend(rs: seq<Record>, x: Record, cs: int)
    requires cs >= 1
    ensures |Remainder(rs, cs)| + 1 == cs ==>
              FullChunks(rs + [x], cs) == FullChunks(rs, cs) + [Remainder(rs, cs) + [x]]
              && Remainder(rs + [x], cs) == []
    ensures |Remainder(rs, cs)| + 1 < cs ==>
              FullChunks(rs + [x], cs) == FullChunks(rs, cs)
              && Remainder(rs + [x], cs) == Remainder(rs, cs) + [x]
    decreases |rs|
  {
    ChunksPartition(rs, cs);
    if |rs| >= cs {
      ChunksAppend(rs[cs..], x, cs);
      assert (rs + [x])[..cs] == rs[..cs];
      assert (rs + [x])[cs..] == rs[cs..] + [x];
    } else if |rs| + 1 == cs {
      assert (rs + [x])[..cs] == rs + [x];
      assert (rs + [x])[cs..] == [];
    }
  }

  /** `sum` of a column. */
  function Sum(s: seq<real>): real {
    if s == [] then 0.0 else Sum(s[..|s| - 1]) + s[|s| - 1]
  }

  /** `max()` of a non-empty column. */
  function SeqMax(s: seq<real>): (m: real)
    requires s != []
    ensures m in s
    ensures forall i :: 0 <= i < |s| ==> s[i] <= m
  {
    if |s| == 1 then s[0]
    else
      var m := SeqMax(s[..|s| - 1]);
      assert s == s[..|s| - 1] + [s[|s| - 1]];
      if s[|s| - 1] > m then s[|s| - 1] else m
  }

  /** `min()` of a non-empty column. */
  function SeqMin(s: seq<real>): (m: real)
    requires s != []
    ensures m in s
    ensures forall i :: 0 <= i < |s| ==> m <= s[i]
  {
    if |s| == 1 then s[0]
    else
      var m := SeqMin(s[..|s| - 1]);
      assert s == s[..|s| - 1] + [s[|s| - 1]];
      if s[|s| - 1] < m then s[|s| - 1] else m
  }

  /** `mean()` of a non-empty column. */
  function Mean(s: seq<real>): (m: real)
    requires s != []
    ensures m * |s| as real == Sum(s)
  {
    Sum(s) / |s| as real
  }

  lemma {:induction false} SumBounds(s: seq<real>, lo: real, hi: real)
    requires forall i :: 0 <= i < |s| ==> lo <= s[i] <= hi
    ensures |s| as real * lo <= Sum(s) <= |s| as real * hi
  {
    if s != [] {
      SumBounds(s[..|s| - 1], lo, hi);
      assert |s| as real * lo == (|s| - 1) as real * lo + lo;
      assert |s| as real * hi == (|s| - 1) as real * hi + hi;
    }
  }

  /** The average power of a summary lies between the smallest and the largest record. */
  lemma MeanBetweenMinAndMax(s: seq<real>)
    requires s != []
    ensures SeqMin(s) <= Mean(s) <= SeqMax(s)
  {
    SumBounds(s, SeqMin(s), SeqMax(s));
    QuotientBounds(Sum(s), |s| as real, SeqMin(s), SeqMax(s));
  }

  lemma QuotientBounds(x: real, n: real, lo: real, hi: real)
    requires n > 0.0 && n * lo <= x <= n * hi
    ensures lo <= x / n <= hi
  {
    assert x == x / n * n;
  }

  function Powers(rs: seq<Record>): (ps: seq<real>)
    ensures |ps| == |rs|
    ensures forall i :: 0 <= i < |rs| ==> ps[i] == rs[i].powerEstimatedWatts
  {
    seq(|rs|, i requires 0 <= i < |rs| => rs[i].powerEstimatedWatts)
  }

  /** The lines of `benchmark_constants.txt`. */
  datatype ConstantsFile = ConstantsFile(timestamp: string, maxCpuPower: real, maxGpuPower: real)

  /** The lines of `monitor_summary.txt`. */
  datatype Summary = Summary(
    from: string,
    to: string,
    durationSeconds: int,
    avgPower: real,
    maxPower: real,
    lastNetwork: string)

  /**
   * What `save_constants_and_summary` writes. The constants file is always
   * written; the summary is `None` when there are no records, where the
   * source raises on the empty table after writing the constants.
   */
  datatype SavedFiles = SavedFiles(constants: ConstantsFile, summary: Option<Summary>)

  /**
   * `save_constants_and_summary(max_cpu_power, max_gpu_power, data_records)`,
   * with `datetime.now()` as the parameter `now`.
   */
  function SaveConstantsAndSummary(maxCpuPower: real, maxGpuPower: real, rs: seq<Record>, now: string): (saved: SavedFiles)
    ensures saved.constants == ConstantsFile(now, maxCpuPower, maxGpuPower)
    ensures saved.summary.None? <==> rs == []
    ensures saved.summary.Some? ==>
              var sm := saved.summary.value;
              && sm.from == rs[0].timestamp
              && sm.to == rs[|rs| - 1].timestamp
              && sm.lastNetwork == rs[|rs| - 1].networkConnection
              && sm.durationSeconds == SummaryInterval * |rs|
              && (forall i :: 0 <= i < |rs| ==> rs[i].powerEstimatedWatts <= sm.maxPower)
              && (exists i :: 0 <= i < |rs| && rs[i].powerEstimatedWatts == sm.maxPower)
              && sm.avgPower == Mean(Powers(rs))
              && SeqMin(Powers(rs)) <= sm.avgPower <= sm.maxPower
  {
    var constants := ConstantsFile(now, maxCpuPower, maxGpuPower);
    if rs == [] then SavedFiles(constants, None)
    else
      var ps := Powers(rs);
      MeanBetweenMinAndMax(ps);
      var avg := Mean(ps);
      var sm := Summary(rs[0].timestamp, rs[|rs| - 1].timestamp, |rs| * SummaryInterval,
                        avg, SeqMax(ps), rs[|rs| - 1].networkConnection);
      assert exists i :: 0 <= i < |rs| && rs[i].powerEstimatedWatts == sm.maxPower by {
        var i :| 0 <= i < |ps| && ps[i] == SeqMax(ps);
        assert rs[i].powerEstimatedWatts == sm.maxPower;
      }
      SavedFiles(constants, Some(sm))
  }

  /**
   * `main_monitor(interval, total_duration, chunk_size)`: `ticks` are the
   * iterations the duration allowed, `maxCpuPower` the global constant,
   * `posts` the chunks handed to `post_data_chunk` in order (delivered or
   * not), `csvRows` the table written to `energy_monitoring_data.csv`.
   */
  method MainMonitor(ticks: seq<MonitorTick>, chunkSize: int, maxCpuPower: real, now: string)
    returns (posts: seq<seq<Record>>, csvRows: seq<Record>, saved: SavedFiles)
    ensures var rs := Records(ticks, maxCpuPower);
            var cs := EffectiveChunk(chunkSize);
            && csvRows == Remainder(rs, cs)
            && posts == FullChunks(rs, cs) + (if csvRows == [] then [] else [csvRows])
    ensures Flatten(posts) == Records(ticks, maxCpuPower)
    ensures saved == SaveConstantsAndSummary(maxCpuPower, MaxGpuPower, csvRows, now)
  {
    var cs := EffectiveChunk(chunkSize);
    var dataRecords: seq<Record> := [];
    posts := [];
    var i := 0;
    while i < |ticks|
      invariant 0 <= i <= |ticks|
      invariant posts == FullChunks(Records(ticks[..i], maxCpuPower), cs)
      invariant dataRecords == Remainder(Records(ticks[..i], maxCpuPower), cs)
    {
      var record := MakeRecord(ticks[i], maxCpuPower);
      ghost var before := Records(ticks[..i], maxCpuPower);
      assert Records(ticks[..i + 1], maxCpuPower) == before + [record];
      ChunksPartition(before, cs);
      ChunksAppend(before, record, cs);
      dataRecords := dataRecords + [record];
      if |dataRecords| >= chunkSize {
        posts := posts + [dataRecords];
        dataRecords := [];
      }
      i := i + 1;
    }
    assert ticks[..i] == ticks;
    if dataRecords != [] {
      posts := posts + [dataRecords];
    }
    csvRows := dataRecords;
    saved := SaveConstantsAndSummary(maxCpuPower, MaxGpuPower, csvRows, now);
    ghost var rs := Records(ticks, maxCpuPower);
    ChunksPartition(rs, cs);
    FlattenAppend(FullChunks(rs, cs), if csvRows == [] then [] else [csvRows]);
    assert Flatten([csvRows]) == csvRows;
  }

  /**
   * The end-of-session files only see the un-chunked rest: the last
   * `n mod cs` records; with `n` a multiple of the chunk size nothing is
   * written and the summary fails.
   */
  lemma EndOfSessionSeesRemainderOnly(ticks: seq<MonitorTick>, chunkSize: int, maxCpuPower: real)
    ensures var rs := Records(ticks, maxCpuPower);
            var n := |rs|;
            var cs := EffectiveChunk(chunkSize);
            && Remainder(rs, cs) == rs[n - n % cs..]
            && (n % cs == 0 <==> Remainder(rs, cs) == [])
  {
    RemainderIsLastModChunk(Records(ticks, maxCpuPower), EffectiveChunk(chunkSize));
  }

  /**
   * A worked scenario: four ticks with chunk size 2 post two chunks of
   * two records, leave nothing to write and produce no summary.
   */
  lemma FourTicksChunkTwo(ticks: seq<MonitorTick>, maxCpuPower: real, now: string)
    requires |ticks| == 4
    ensures var rs := Records(ticks, maxCpuPower);
            && FullChunks(rs, 2) == [rs[..2], rs[2..4]]
            && Remainder(rs, 2) == []
            && SaveConstantsAndSummary(maxCpuPower, MaxGpuPower, Remainder(rs, 2), now).summary.None?
  {
    var rs := Records(ticks, maxCpuPower);
    assert rs[2..][2..] == [];
    assert rs[2..][..2] == rs[2..4];
    assert FullChunks(rs[2..][2..], 2) == [] && Remainder(rs[2..][2..], 2) == [];
    assert FullChunks(rs[2..], 2) == [rs[2..4]] && Remainder(rs[2..], 2) == [];
  }

  /**
   * The program's `__main__`: a CPU calibration, then a monitoring session
   * with chunk size 10 whose estimates all use the calibrated constant.
   */
  method RunSession(calibrationTicks: seq<CalibrationTick>, monitorTicks: seq<MonitorTick>, now: string)
    returns (posts: seq<seq<Record>>, csvRows: seq<Record>, saved: SavedFiles)
    ensures var calibrated := Max0(TickEstimates(calibrationTicks, DefaultMaxCpuPower));
            && posts == FullChunks(Records(monitorTicks, calibrated), DefaultChunkSize)
                        + (if csvRows == [] then [] else [csvRows])
            && Flatten(posts) == Records(monitorTicks, calibrated)
            && csvRows == Remainder(Records(monitorTicks, calibrated), DefaultChunkSize)
            && saved == SaveConstantsAndSummary(calibrated, MaxGpuPower, csvRows, now)
  {
    var constants := new PowerConstants();
    var _ := BenchmarkCpu(constants, calibrationTicks);
    posts, csvRows, saved := MainMonitor(monitorTicks, DefaultChunkSize, constants.maxCpuPower, now);
  }
}
