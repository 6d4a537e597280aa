# Power consumption monitor — Dafny model

This project models the measuring side of a Windows energy monitor written in
Python. The monitor estimates a laptop's power draw from CPU load, GPU power
or load and battery state. It first calibrates its CPU constant under a
stress load, then samples once per interval. It posts the records in chunks
to an HTTP endpoint and finally writes a CSV file, a constants file and a
summary. Two stand-alone scripts sit beside it:

- a combined CPU+GPU benchmark with its own simpler estimator and a
  discrete-GPU chooser;
- a sensor script that reads CPU power, load and temperatures from a
  hardware-monitor sensor tree.

Modules, one concept each:

- `Wrappers`: `Option` and Python's `x or 0` for a possibly missing number.
- `Text`: the string operations the source relies on: `in`, `lower()`,
  `startswith`, `split(":", 1)[1]` and `strip()`.
- `Maxima`: the running maximum that starts from 0 (`Max0`), shared by every
  benchmark loop.
- `Power`: `get_battery_info` and `estimate_power` of `src/main.py`.
- `Network`: `get_active_network` and `get_wifi_ssid` of `src/main.py`.
- `Calibration`: `benchmark_cpu`. It rewrites the process-wide CPU constant,
  modelled as a class `PowerConstants` with one mutable field.
- `Monitor`:
  - `main_monitor`, with its chunked posting;
  - `save_constants_and_summary`;
  - the `__main__` sequence.
- `Benchmark`: `src/benchmark_test.py`.
- `Energy`: `src/energy_test.py`.

Everything outside the program becomes input:

- Sensor reads, WMI, NVML, psutil, `netsh` output and the clock are passed
  in. A loop that runs "until the duration has elapsed" takes the sequence of
  readings its iterations made (ticks).
- A post is a list of the chunks handed to `post_data_chunk`, in order.
- A file write is a datatype holding the values written.
- Arithmetic is over `real`, with no rounding.

Behaviour of the source that the model keeps, and proves:

- `main_monitor` resets its buffer after each post. The CSV and the summary
  therefore see only the last `n mod chunk_size` records.
  - When `n` is a multiple of the chunk size there are no such records. The
    summary then fails on the empty table after the constants file is
    written. The model returns no summary in that case.
- `chunk_size` values below 1 behave as 1.
- The calibration overwrites the CPU constant with the largest whole-system
  estimate, or with 0 when the loop never ran. It passes the GPU load
  percentage where the estimator expects watts.
- In `get_wifi_ssid`, an SSID line without a colon raises. The exception
  handler then ends the whole lookup with no SSID.
- In `extract_cpu_power_load`, a matching sensor whose value is null does not
  stop a later matching sensor from supplying the value.

## Model

The table lists the members that carry contracts: lemmas, functions whose
`ensures` say something, and the methods. The definitions those contracts are
about have no contract of their own:

- `Power.EstimatePower` models `estimate_power`, src/main.py:183-192.
  - `Power.BatteryPenalty` models line 185.
  - `Power.GpuWatts` models line 188.
- `Power.StatusOrNoBattery` models the "No Battery" default, src/main.py:130 and 200.
- `Network.Kind` models the interface test, src/main.py:81-86.
- `Network.LinkLabel` models the returned label, src/main.py:85-87.
- `Network.ScanSsid` models the line loop of `get_wifi_ssid`, src/main.py:97-104.
- `Network.WifiSsid` models `get_wifi_ssid` as a whole, src/main.py:90-104.
- `Calibration.TickEstimate` models one calibration estimate, src/main.py:128-131.
- `Monitor.GpuPowerWatts` models src/main.py:57-62, and `Monitor.GpuUsage` models src/main.py:50-55.
- `Monitor.MakeRecord` models the record of one monitor tick, src/main.py:200-221.
- `Monitor.FullChunks` and `Monitor.Remainder` model the chunks posted inside the loop and the buffer left after it, src/main.py:222-234.
- `Energy.CpuSensors` models the CPU filter, src/energy_test.py:24-26.
- `Energy.Measures` and `Energy.FirstValue` model the name tests and the first-value rule, src/energy_test.py:27-31.
- `Energy.IsTemperature` and `Energy.TempValues` model the temperature filter, src/energy_test.py:55-57.

| member | source | states |
|---|---|---|
| Wrappers.OrZero | src/main.py:129 | `x or 0` on a possibly missing number: the result is 0 iff the value is missing or 0, and any other result is the value itself |
| Text.ContainsIff | src/main.py:98 | the substring test `sub in s` holds iff `sub` occurs at some index of `s` |
| Text.AfterFirst | src/main.py:99 | `split(c, 1)[1]`: fails exactly when `c` is not in the string; otherwise the text after the first `c` |
| Text.Strip | src/main.py:99 | `strip()`: the result is the input with only whitespace removed before and after it, and it neither starts nor ends with whitespace |
| Maxima.Max0Bounds | src/main.py:123-136 | a running maximum that starts from 0 is at least every sample, and is 0 or one of the samples |
| Power.StatusOf | src/main.py:33-42 | the status map with its default: never "No Battery"; "Cargando" iff code 2; "Desconocido" iff the code is outside 2..6 |
| Power.StatusOfInjective | src/main.py:33-40 | distinct codes 2..6 map to distinct statuses |
| Power.StatusTextInjective | src/main.py:33-40 | distinct statuses carry distinct strings, so the source's string comparison is a status comparison |
| Power.GetBatteryInfo | src/main.py:28-45 | no battery iff the WMI list is empty; a present battery's status always comes from the map, never "No Battery" |
| Power.FirstBatteryOnly | src/main.py:32 | only the first battery is read; the batteries after it never change the result |
| Power.PenaltyIffChargingCode | src/main.py:185 | the 5 W penalty applies iff a battery exists and its status code is 2 (a null code is unknown) |
| Power.EstimateLowerBound | src/main.py:183-192 | for non-negative inputs the estimate is at least 1.2 × (10 W idle + penalty) |
| Power.ChargingAddsPenalty | src/main.py:185-191 | charging adds exactly 6 W after correction; every other status, "No Battery" included, adds nothing |
| Power.MeasuredGpuPowerWins | src/main.py:188 | a measured GPU wattage, 0 included, is used as is and the fallback load reading has no effect |
| Power.MissingGpuLoadIsZero | src/main.py:188 | without a wattage, a missing GPU load counts as 0 % |
| Power.EstimateMonotoneInCpu | src/main.py:187-191 | a higher CPU load never lowers the estimate while the CPU constant is non-negative |
| Power.WorkedEstimates | src/main.py:183-192 | worked values: 30 W at 50 % CPU discharging, 18 W idle charging, 12 W idle discharging |
| Network.ClassifyLine | src/main.py:98-101 | a line that does not contain "SSID", or contains "BSSID", is skipped; a line aborts the lookup iff it is an SSID line without a colon; a found value is non-empty and trimmed |
| Network.ClassifyLineValue | src/main.py:98-101 | on an SSID line the value is the text after the first colon, stripped; the line is skipped when that is empty |
| Network.ScanSsidFromLine | src/main.py:97-101 | a found SSID is the value of one of the output lines |
| Network.ScanSsidTrimmed | src/main.py:97-104 | a found SSID is non-empty and has no whitespace at either end |
| Network.ScanSsidFirstDecisive | src/main.py:97-101 | the first line that is not skipped decides the result; later lines are never read |
| Network.ScanSsidAllSkipped | src/main.py:97-104 | with no decisive line the lookup returns no SSID |
| Network.ActiveNetwork | src/main.py:76-88 | the label is "Desconocida" iff no interface is up with a WiFi or Ethernet name |
| Network.ActiveNetworkFirstMatch | src/main.py:80-87 | the first up WiFi or Ethernet interface gives the label, whatever follows it |
| Network.WifiLabelShowsSsid | src/main.py:83-85 | a WiFi label names the SSID iff the lookup found one |
| Calibration.PowerConstants.constructor | src/main.py:25 | the CPU constant starts at 30 W |
| Calibration.GpuLoadCountedAsWatts | src/main.py:129-131 | in the calibration each GPU load point adds 1.2 W, treating the percentage as watts |
| Calibration.BenchmarkCpu | src/main.py:117-148 | the new CPU constant is the running maximum, from 0, of the estimates made with the old constant; the returned value is the maximum CPU load |
| Calibration.CalibratedConstantBounds | src/main.py:123-147 | the calibrated constant is non-negative, at least every estimate of the run, one of them or 0, and 0 for an empty run |
| Monitor.RecordBattery | src/main.py:200-214 | the status is "No Battery" iff there is no battery, and then charge and run time are missing; otherwise all three come from the first WMI battery, with nulls passed through and a null status read as "Desconocido" |
| Monitor.MonitorGpuTerm | src/main.py:200-221 | a monitor record's estimate uses the measured GPU watts or 0, never the load fallback; the temperature column is the first min(3, n) samples |
| Monitor.EffectiveChunk | src/main.py:226 | the posting threshold is at least 1 and equals `chunk_size` when that is positive |
| Monitor.ChunksPartition | src/main.py:222-234 | the posted full chunks followed by the rest give back every record in order; each chunk holds exactly the chunk size and the rest holds fewer |
| Monitor.RemainderIsLastModChunk | src/main.py:226-240 | the rest is the last `n mod cs` records, is empty iff `cs` divides `n`, and `n / cs` chunks are posted inside the loop |
| Monitor.ChunksAppend | src/main.py:222-228 | one appended record either completes a chunk, which is posted and empties the buffer, or extends the buffer |
| Monitor.SeqMax | src/main.py:162 | `max()` of a non-empty column is one of its values and at least every value |
| Monitor.Mean | src/main.py:161 | `mean()` of a non-empty column: the mean times the number of values is their sum |
| Monitor.MeanBetweenMinAndMax | src/main.py:161-162 | the mean power lies between the minimum and the maximum |
| Monitor.SaveConstantsAndSummary | src/main.py:151-171 | the constants file holds the two constants; the summary exists iff there are records, spans the first to the last timestamp, lasts 5 s per record, and has the last network, a maximum attained and bounding every record, and the mean power of the records |
| Monitor.MainMonitor | src/main.py:194-243 | posts are the full chunks then the non-empty rest, together exactly the session's records; the CSV rows are the rest; the files are written from the rest |
| Monitor.EndOfSessionSeesRemainderOnly | src/main.py:226-243 | the files at the end see only the last `n mod cs` records, and none when `cs` divides `n` |
| Monitor.FourTicksChunkTwo | src/main.py:226-243 | four ticks with chunk size 2 post two chunks of two and produce no summary |
| Monitor.RunSession | src/main.py:246-248 | the monitoring session estimates every record with the constant the calibration produced, posting in chunks of 10 |
| Benchmark.EstimatePower | src/benchmark_test.py:18-22 | for non-negative loads the estimate is at least the 10 W idle draw |
| Benchmark.EstimateMonotone | src/benchmark_test.py:18-22 | raising either load never lowers the estimate |
| Benchmark.EstimateEndpoints | src/benchmark_test.py:18-22 | 10 W idle (a missing GPU load counts as 0 %), 80 W at full CPU and GPU load |
| Benchmark.DiscreteChoiceUnique | src/benchmark_test.py:42-58 | at most one device satisfies the discrete-GPU choice, so the chooser's contract fixes its result |
| Benchmark.DiscreteGpuIndex | src/benchmark_test.py:42-58 | none iff NVML is unavailable; otherwise the earliest device with the strictly largest positive memory, or 0 when no memory is positive |
| Benchmark.GetGpuLoad | src/benchmark_test.py:60-71 | a non-zero load only comes from a successful read of device `index` (0 when missing); a successful read gives that device's utilisation |
| Benchmark.NoIndexMeansDeviceZero | src/benchmark_test.py:63-64 | a missing index reads device 0 |
| Benchmark.BenchmarkCombined | src/benchmark_test.py:103-133 | the device is the discrete choice, or 0; each of the three results is the running maximum, from 0, of its samples read from that device |
| Energy.CpuSensorsOnlyCpu | src/energy_test.py:24-26 | every scanned sensor belongs to a CPU hardware node |
| Energy.NonCpuHardwareIgnored | src/energy_test.py:25 | non-CPU hardware contributes no sensors |
| Energy.FirstValueNone | src/energy_test.py:20-32 | a result stays none iff no matching sensor has a value |
| Energy.FirstValueAt | src/energy_test.py:28-31 | the first matching sensor with a value decides the result; later matches never overwrite it |
| Energy.OneSensorSetsBoth | src/energy_test.py:27-31 | one sensor whose name mentions power and load sets both results |
| Energy.ExtractCpuPowerLoad | src/energy_test.py:20-32 | the nested loops return, for power and load, the first value among the CPU sensors whose lower-cased name matches |
| Energy.TemperatureTestRedundant | src/energy_test.py:56 | the "temperature" test adds nothing to the "temp" test |
| Energy.TempValuesFromTemperatureSensors | src/energy_test.py:51-58 | every collected value is the value of a temperature sensor |
| Energy.ExtractCpuTemp | src/energy_test.py:51-58 | the temperatures are the values of the CPU temperature sensors, in order, null values included, at most one per sensor |
| Energy.SampleCpuPower | src/energy_test.py:60-100 | `60 // 5` = 12 records, the k-th built from the k-th sensor reading's power, load and timestamp |

## Left out

- HTTP posting:
  - `requests.post` and its status handling are not modelled. A post is the chunk handed to `post_data_chunk`, whether it was delivered or not.
  - Delivery failures are only printed.
- File and console output:
  - directory creation, file formats, `pandas`, `.2f` formatting and every `print`;
  - the `list_cpu_sensors` and `list_all_sensors` printers;
  - the temperature and load print before the sampling loop of the sensor script.
  - Files are modelled as the values written to them.
- Time: `time.time()`, `sleep`, `interval` and `total_duration`. They only decide how many ticks a loop makes, and the ticks are an input. The summary's duration is always 5 s per record, which the model keeps.
- Foreign code, which is opaque to the model:
  - the stress processes (Prime95, FurMark) and the threads that run them;
  - `get_furmark_gpuinfo`;
  - the hardware monitor's update visitor.
- Sensor and platform reads are inputs: WMI, NVML, psutil, `platform.system()` and `netsh`.
  - The temperature query is a list of samples.
  - The `netsh` output is a list of lines, or none when it is unavailable.
  - `splitlines` is not modelled.
- Exceptions that the source does not catch are not modelled:
  - NVML failures inside `get_gpu_usage` and `get_gpu_power_watts`;
  - in `get_discrete_gpu_index`, an NVML failure while iterating.
  - The model assumes those reads succeed.
- `get_gpu_load` without an argument is shadowed by its later definition and is never called, so it is not modelled.
- Text.Strip: whitespace is the ASCII and Latin-1 whitespace set plus the separators U+1C to U+1F. Other Unicode spaces are not covered.
- Text.Lower: only ASCII letters are lowered. The compared literals are all ASCII, but a non-ASCII upper-case letter in a name is not lowered the way Python would.
- Power.BatteryStatus: the status is an enumeration of the seven strings the source can produce, not an arbitrary string.
- Numbers are exact reals, not IEEE doubles, and WMI integers are unbounded.
