# container-gpu-exporter: the detect cycle in Dafny

container-gpu-exporter is a Prometheus exporter. It publishes per-GPU
telemetry, and the GPU memory each Docker container uses on each GPU.
`detecting_loop` runs a `while True` loop. Each turn of the loop does these steps:

1. It reads every NVML device into a list of per-device records
   (`get_gpu_info`). Each record carries a table from PID to memory in MiB.
2. It reads the running containers into a map from host PID to container name
   (`get_container_info`). The name is the Docker name minus its first character.
3. It sets six device gauges per device, then one
   `container_gpu_memory_usage` child per matched PID.
4. It sleeps `detecting_interval` seconds. If anything in the turn raised, it
   logs the error and sleeps one second instead.

This project models those three functions and one turn of the loop, and proves what they do.

- `PyDict` models a Python `dict` as keys in first-insertion order plus a
  key-to-value map. The order matters: it decides which PID the publish loop
  meets first.
- `Readings` holds the NVML and Docker answers as input values. It also holds
  `get_container_info` and `get_gpu_info` as loops, proved against fold
  functions.
- `Gauges` holds the gauge store as a class with one map field per gauge.
  The map goes from label tuple to value. `PublishGpu` and `PublishAll` are the
  nested publish loops. They are proved equal to the pure pass `WithGpus`, and
  the pass has the properties listed below.
- `DetectLoop` holds one turn (`Tick`, specified by `TickSpec`), the wait it
  picks (`NextWait`), and the loop over a finite sequence of turns
  (`DetectingLoop`, specified by `Run`).
- `Scenarios` works through concrete turns.

Lines 94-95 of `exporter.py` handle a GPU process whose PID is in no listed
container with `gpu['container_info'].pop(pid)`. The device record has no such
key, so this raises `KeyError`, and the generic handler abandons the rest of
the turn. The model does exactly that:

- gauges set before that PID keep their new values;
- the remaining PIDs of that device and every later device are not published;
- the next sleep is one second.

The `else` branch calls `.pop(pid)`, so it evidently means to discard the
unmatched PID and carry on. That variant is modelled separately, and the difference is logged under "## Findings".

A negative `detecting_interval` makes `time.sleep` raise `ValueError` inside
the `try`. That turn therefore also ends in the handler's one-second sleep
(`SleepValueError`).

## Model

| member | source | states |
|---|---|---|
| `Readings.ContainerName` | exporter.py:39 | `Name[1:]` removes exactly the first character, whatever it is; an empty name stays empty |
| `Readings.ContainerNameExamples` | exporter.py:39 | "/web" gives "web", "abc" gives "bc", "" gives "" |
| `Readings.MiB` | exporter.py:53 | the MiB value times 1048576 is the byte count (exact division) |
| `Readings.Watts` | exporter.py:60-61 | the watt value times 1000 is the milliwatt reading |
| `Readings.GetContainerInfo` | exporter.py:35-40 | the loop over the listed containers builds exactly the dict obtained by inserting `(pid, stripped name)` for each container in list order |
| `Readings.ContainerInfoKeys` | exporter.py:36-40 | a PID is a key of the container map if and only if some listed container reports it |
| `Readings.ContainerInfoValueFrom` | exporter.py:39 | every stored name is the stripped name of a listed container with that PID |
| `Readings.ContainerInfoLaterWins` | exporter.py:38-39 | of containers reporting the same PID, the last one in list order gives the name |
| `Readings.GetContainerMemoryUsage` | exporter.py:51-53 | the loop over the compute processes builds exactly the dict of `(pid, MiB(usedGpuMemory))` insertions in process order |
| `Readings.GetGpuInfo` | exporter.py:43-66 | one record per device in device order, record `i` has index `i`, and each record is assembled from that device's readings as at lines 54-65 |
| `Readings.GpuInfoShape` | exporter.py:54-57 | the list has one entry per device; entry `i` carries index `i` and its device's name and uuid; its PID table has no duplicate keys |
| `Readings.ContainerMemoryUsageKeys` | exporter.py:51-53 | a PID is a key of a device's table if and only if one of its compute processes has that PID |
| `Readings.ContainerMemoryUsageLaterWins` | exporter.py:52-53 | a PID listed twice keeps the memory of its last listing, converted to MiB |
| `Readings.ContainerMemoryUsageOrder` | exporter.py:52-53 | the table's keys are iterated in the order of the PIDs' first listing |
| `PyDict.Set` | exporter.py:39 | `d[k] = v`: the key now maps to `v`, other keys keep their values, a new key is appended to the iteration order and an existing one keeps its place |
| `PyDict.FromPairsKeys` | exporter.py:36-40 | a dict filled by a loop of assignments has a key exactly for each assigned key |
| `PyDict.FromPairsLastWins` | exporter.py:52-53 | the value is the one of the last assignment to that key |
| `PyDict.FromPairsValueFrom` | exporter.py:38-39 | every stored value was assigned to its key by some step of the loop |
| `PyDict.FromPairsOrder` | exporter.py:90 | iteration order is first-assignment order |
| `PyDict.FromPairsValid` | exporter.py:51-53 | the keys listed for iteration are distinct and are exactly the stored keys |
| `Gauges.GaugeStore.constructor` | exporter.py:72-78 | the seven gauges start with no child |
| `Gauges.GaugeStore.SetDeviceGauges` | exporter.py:84-89 | the six `.set()` calls give the new store `WithDevice(old store, gpu)`; no other field changes |
| `Gauges.GaugeStore.PublishGpu` | exporter.py:84-95 | one device's iteration leaves the store and the success flag that `WithGpu` gives, stopping at the first unmatched PID |
| `Gauges.GaugeStore.PublishAll` | exporter.py:83-95 | the loop over the device list leaves the store and the flag that `WithGpus` gives, leaving at the first raise |
| `Gauges.WithDevice` | exporter.py:84-89 | the six device gauges at `(index, name, uuid)` hold the record's readings; every other device label and the container gauge are untouched |
| `Gauges.WithPids` | exporter.py:90-95 | device gauges are untouched by the inner loop and no child disappears |
| `Gauges.WithGpus` | exporter.py:83-95 | no child of any gauge disappears during the pass |
| `Gauges.MatchedPrefix` | exporter.py:90-95 | the number of leading PIDs that have a container; the PID after them, if any, has none |
| `Gauges.FailingDevice` | exporter.py:83-95 | the first device with an unmatched PID; every device before it is fully matched |
| `Gauges.Reached` | exporter.py:83-95 | when some device has an unmatched PID, exactly the devices up to and including that one are reached; when none has, all of them are |
| `Gauges.WithPidsOutcome` | exporter.py:90-95 | the inner loop completes if and only if every PID of the device has a container |
| `Gauges.WithPidsKeeps` | exporter.py:90-95 | a container label that no PID before the stop maps to keeps its child |
| `Gauges.WithPidsSets` | exporter.py:91-93 | a PID before the stop sets its container's child to its memory unless a later PID before the stop has the same container name |
| `Gauges.WithGpusOutcome` | exporter.py:83-95 | the pass completes if and only if no device has an unmatched PID |
| `Gauges.WithGpusKeepsDevice` | exporter.py:83-89 | a device label carried by no reached device keeps all six children |
| `Gauges.WithGpusSetsDevice` | exporter.py:84-89 | every reached device, the failing one included, has its six gauges set from its own record |
| `Gauges.WithGpusKeepsContainer` | exporter.py:90-95 | a container label no published PID maps to keeps its child |
| `Gauges.WithGpusSetsContainer` | exporter.py:90-93 | a published PID sets `(index, name, uuid, container_name)` to its memory; the later PID with the same name on that device overwrites it |
| `Gauges.DeviceGaugesDependOnlyOnReach` | exporter.py:84-89 | the device gauges depend on the container map only through where the pass stops |
| `Gauges.WithPidsOverlays` | exporter.py:90-93 | the inner loop's result is the previous gauges overlaid with writes that do not depend on them |
| `Gauges.WithGpusOverlays` | exporter.py:83-95 | the pass is the previous gauges overlaid with this turn's writes; the writes and where the pass stops do not depend on the previous gauges |
| `Gauges.WithGpusIdempotent` | exporter.py:83-95 | running the pass twice on the same readings gives what running it once gives |
| `Gauges.GpuInfoFitsPass` | exporter.py:54-65 | `get_gpu_info`'s records list only PIDs of their own table and carry distinct indexes |
| `Gauges.AllMatchedIff` | exporter.py:51-53 | a record has no unmatched PID if and only if every compute-process PID is in the container map |
| `Gauges.WithPidsSkipping` | exporter.py:94-95 | the corrected inner loop, which skips unmatched PIDs, leaves the device gauges alone |
| `Gauges.SkippingAgreesWhenMatched` | exporter.py:83-95 | without unmatched PIDs the corrected pass and the pass as written agree |
| `Gauges.PidsSkippingAgrees` | exporter.py:90-95 | the same agreement for one device's inner loop |
| `Gauges.SkippingSetsEveryDevice` | exporter.py:84-89 | the corrected pass sets the six gauges of every device |
| `Gauges.SkippingKeepsDevice` | exporter.py:84-89 | the corrected pass leaves a label that no device carries alone |
| `Gauges.PidsSkippingKeeps` | exporter.py:90-95 | the corrected inner loop leaves a label that no matched PID maps to alone |
| `Gauges.PidsSkippingSets` | exporter.py:91-93 | the corrected inner loop publishes every matched PID, whatever unmatched PIDs precede it |
| `Gauges.SkippingKeepsContainer` | exporter.py:90-95 | the corrected pass leaves container labels of other indexes alone |
| `Gauges.SkippingSetsContainer` | exporter.py:90-93 | the corrected pass publishes every matched PID of every device |
| `DetectLoop.TickSpec` | exporter.py:80-99 | a failed NVML read raises before any gauge is set; a failed Docker read raises after the NVML read and before any gauge is set; no child ever disappears |
| `DetectLoop.NextWait` | exporter.py:96-99 | the sleep after a raise is 1; after a completed turn it is `detecting_interval` |
| `DetectLoop.Tick` | exporter.py:80-99 | the store and outcome after one turn are `TickSpec`'s; the wait is `NextWait`'s |
| `DetectLoop.Run` | exporter.py:79-99 | one sleep per turn, each 1 or the interval; no child disappears over the run |
| `DetectLoop.DetectingLoop` | exporter.py:79-99 | the store and the sleeps after the turns are `Run`'s: no turn ends the loop, whatever raises in it |
| `DetectLoop.PassCompletesIff` | exporter.py:83-95 | the publish loop completes if and only if every GPU process belongs to a listed container |
| `DetectLoop.TickOutcome` | exporter.py:80-99 | a turn completes if and only if both reads answer, every GPU process has a container and the interval is not negative; it raises `KeyError` if and only if both reads answer and some process has no container; the wait is the interval after completion and 1 otherwise |
| `DetectLoop.TickSetsDeviceGauges` | exporter.py:84-89 | device `i` shows its own readings after the turn when the devices before it are fully matched, whatever its own processes are |
| `DetectLoop.TickKeepsOtherDevices` | exporter.py:84-89 | a label of no device read this turn keeps all six children |
| `DetectLoop.TickLeavesDevicesAfterStop` | exporter.py:94-99 | the devices after the one that raised are not published: their labels keep their previous children |
| `DetectLoop.TickKeepsGoneContainers` | exporter.py:90-93 | the child of a container no longer listed keeps its last value |
| `DetectLoop.TickIdempotent` | exporter.py:80-96 | a turn repeated on the same readings changes nothing further and ends the same way |
| `DetectLoop.RunNeverEvicts` | exporter.py:72-99 | over any run, no child present after a prefix of the turns is missing afterwards |
| `DetectLoop.CorrectedTickSpec` | exporter.py:94-95 | the corrected turn never raises `KeyError`; it completes if and only if both reads answer and the interval is not negative |
| `DetectLoop.CorrectedTickSetsEveryDevice` | exporter.py:84-89 | the corrected turn sets the six gauges of every device read |
| `DetectLoop.CorrectedTickAgrees` | exporter.py:83-95 | when every process has a container, the corrected turn and the turn as written agree |
| `Scenarios.MatchedProcessScenario` | exporter.py:51-53 | process 111 with 536870912 bytes in container "/trainer" gives child `(0, A100, GPU-0, trainer) = 512.0`; the turn completes and waits the interval |
| `Scenarios.EmptyContainerListScenario` | exporter.py:84-95 | with no containers listed, device 0's gauges are set, no container child appears, and the turn raises and waits 1 |
| `Scenarios.UnmatchedPidAbandonsCycle` | exporter.py:94-99 | an unmatched PID ahead of the trainer's raises: device 0 is set, but the trainer's child and device 1 are not, and the wait is 1 |
| `Scenarios.UnmatchedPidSkipped` | exporter.py:94-95 | the corrected turn on the same readings completes, sets the trainer's child to 512.0 and sets device 1 |

## Left out

- NVML calls (`nvmlInit`, handle lookup, the utilization, power, memory and
  process queries, and `nvmlShutdown` in `__del__`) are a foreign library, so
  their answers are input records.
- A raise anywhere during the device reads is `devices == None`, with no
  partial list.
- `docker.from_env` and `containers.list()` are a foreign client, so their
  answer is an input sequence of (PID, raw name). A raise is
  `containers == None`.
- `start_http_server` and the exposition format are network I/O with
  concurrent scrapes, so only the gauge values are modelled.
- Prometheus turns label values into strings. The device index is kept as an
  integer label, which is equivalent because decimal rendering is injective.
- Logging, `format_exc` and the real `time.sleep` are I/O. The sleep is only
  the chosen wait.
- Very large sleep values that `time.sleep` rejects are not modelled.
- Floating point rounding in `/ 1024 / 1024` and `/ 1000` is not modelled;
  the divisions are exact reals.
- `settings.py` (YAML load and pydantic settings) and the
  `ContainerGpuExporterConfig` validation are file I/O and library parsing,
  so `detecting_interval` is an integer parameter. `exporter_port` is used
  only by the HTTP server.
- UTF-8 decoding of device names and UUIDs is library behaviour, so names are
  strings.
- `usedGpuMemory` can be `None` in pynvml, which would make the division
  raise. The model takes it as a natural number.
- `while True` never ends, so the loop is modelled over any finite sequence
  of turns.
- Whether a process is a hidden child of a container's main PID is not
  looked at; the join is on the exact PID, as in the source.

## Findings

| source | as written | input that shows it | evidently intended | confidence | as-written member | corrected member |
|---|---|---|---|---|---|---|
| exporter.py:94-95 | For a GPU process whose PID is in no listed container, `gpu['container_info'].pop(pid)` looks up a key the device record never has (lines 54-65). It raises `KeyError`, and the handler at lines 97-99 drops the rest of the turn: the remaining PIDs of that device and all later devices go unpublished, and the next wait is 1 s. | Device 0 runs PID 222, which no container reports, and then PID 111 of container "/trainer" (536870912 bytes); a second device follows. The turn raises, the trainer's child and device 1's gauges are never set, and the wait is 1. | Discard the unmatched PID and go on with the next one: the `else` branch calls `.pop(pid)`, which only makes sense as a discard. Popping from `container_memory_usage` inside its own `.keys()` loop would instead raise `RuntimeError` in CPython (the dict changes size during iteration), so skipping the PID is the intended behaviour. | high, from reading the code; not executed | `Scenarios.UnmatchedPidAbandonsCycle` (on `DetectLoop.TickSpec` / `Gauges.WithGpus`) | `Gauges.WithGpusSkipping` with `Gauges.SkippingSetsContainer`, `Gauges.SkippingSetsEveryDevice`, `Gauges.SkippingAgreesWhenMatched`; at the turn level `DetectLoop.CorrectedTickSpec`, `DetectLoop.CorrectedTickAgrees`, `Scenarios.UnmatchedPidSkipped` |

The publish loop and `Tick` keep the behaviour as written, because that is
what the exporter does. The corrected pass is the reference the finding is
measured against. `CorrectedTickAgrees` shows the two differ only on turns
that have an unmatched PID.
