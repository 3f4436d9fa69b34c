/**
  One turn of the `while True` loop in `detecting_loop`: read the devices, read
  the containers, publish, sleep; any raise inside the `try` is caught, logged
  and followed by a one-second sleep. The loop itself is modelled over a finite
  sequence of cycle inputs.
 */
module DetectLoop {
  import opened Wrappers
  import opened PyDict
  import opened Readings
  import opened Gauges

  /** What raised inside the `try` block of a cycle. */
  datatype CycleError =
    | NvmlError                 // an NVML query in `get_gpu_info`
    | DockerError               // `containers.list()` in `get_container_info`
    | KeyError(key: string)     // `gpu['container_info']` for an unmatched PID
    | SleepValueError           // `time.sleep` of a negative `detecting_interval`

  datatype Outcome = Completed | Raised(error: CycleError)

  /** The collaborators' answers for one cycle; `None` is a call that raised. */
  datatype CycleInput = CycleInput(devices: Option<seq<NvmlDevice>>, containers: Option<seq<ContainerRecord>>)

  /** The gauges after one cycle and how its `try` block ended. */
  function TickSpec(g: GaugeValues, input: CycleInput, detectingInterval: int): (r: (GaugeValues, Outcome))
    ensures Grows(g, r.0)
    ensures input.devices.None? ==> r == (g, Raised(NvmlError))
    ensures input.devices.Some? && input.containers.None? ==> r == (g, Raised(DockerError))
  {
    match input.devices
    case None => (g, Raised(NvmlError))
    case Some(devices) =>
      match input.containers
      case None => (g, Raised(DockerError))
      case Some(containers) =>
        GpuInfoFitsPass(devices);
        PassEnd(WithGpus(g, GpuInfo(devices), ContainerInfo(containers).entries), detectingInterval)
  }

  /** How the `try` block ends after the publish loop: its raise, or the sleep of the interval. */
  function PassEnd(pass: (GaugeValues, bool), detectingInterval: int): (GaugeValues, Outcome) {
    if !pass.1 then (pass.0, Raised(KeyError("container_info")))
    else if detectingInterval < 0 then (pass.0, Raised(SleepValueError))
    else (pass.0, Completed)
  }

  /** The argument of the `time.sleep` that ends the cycle. */
  function NextWait(outcome: Outcome, detectingInterval: int): (w: nat)
    ensures outcome.Raised? ==> w == 1
    ensures outcome.Completed? && detectingInterval >= 0 ==> w == detectingInterval
  {
    if outcome.Completed? && detectingInterval >= 0 then detectingInterval else 1
  }

  /** The body of the `while True` loop (lines inside `try` / `except`). */
  method Tick(store: GaugeStore, input: CycleInput, detectingInterval: int) returns (outcome: Outcome, wait: nat)
    modifies store
    ensures (store.Values(), outcome) == TickSpec(old(store.Values()), input, detectingInterval)
    ensures wait == NextWait(outcome, detectingInterval)
  {
    if input.devices.None? {
      outcome := Raised(NvmlError);
    } else {
      var gpuInfo := GetGpuInfo(input.devices.value);
      if input.containers.None? {
        outcome := Raised(DockerError);
      } else {
        var containerInfo := GetContainerInfo(input.containers.value);
        GpuInfoFitsPass(input.devices.value);
        var ok := store.PublishAll(gpuInfo, containerInfo);
        if !ok {
          outcome := Raised(KeyError("container_info"));
        } else if detectingInterval < 0 {
          outcome := Raised(SleepValueError);
        } else {
          outcome := Completed;
        }
      }
    }
    wait := NextWait(outcome, detectingInterval);
  }

  /** The gauges and the sleeps of a run of cycles. */
  function Run(g: GaugeValues, inputs: seq<CycleInput>, detectingInterval: int): (r: (GaugeValues, seq<nat>))
    ensures |r.1| == |inputs|
    ensures Grows(g, r.0)
    ensures forall k :: 0 <= k < |r.1| ==> r.1[k] == 1 || r.1[k] == detectingInterval
    decreases |inputs|
  {
    if inputs == [] then (g, [])
    else
      var t := TickSpec(g, inputs[0], detectingInterval);
      var rest := Run(t.0, inputs[1..], detectingInterval);
      (rest.0, [NextWait(t.1, detectingInterval)] + rest.1)
  }

  /** Running the cycles from the `i`-th one is that cycle followed by the rest. */
  lemma RunFrom(g: GaugeValues, inputs: seq<CycleInput>, detectingInterval: int, i: nat)
    requires i < |inputs|
    ensures var t := TickSpec(g, inputs[i], detectingInterval);
            var rest := Run(t.0, inputs[i + 1..], detectingInterval);
            Run(g, inputs[i..], detectingInterval) == (rest.0, [NextWait(t.1, detectingInterval)] + rest.1)
  {
    assert inputs[i..][0] == inputs[i] && inputs[i..][1..] == inputs[i + 1..];
  }

  /** `while True` over the given cycles: no cycle ends the loop, whatever raises in it. */
  method DetectingLoop(store: GaugeStore, inputs: seq<CycleInput>, detectingInterval: int) returns (waits: seq<nat>)
    modifies store
    ensures (store.Values(), waits) == Run(old(store.Values()), inputs, detectingInterval)
  {
    ghost var whole := Run(store.Values(), inputs, detectingInterval);
    assert inputs[0..] == inputs;
    waits := [];
    for i := 0 to |inputs|
      invariant Run(store.Values(), inputs[i..], detectingInterval).0 == whole.0
      invariant waits + Run(store.Values(), inputs[i..], detectingInterval).1 == whole.1
    {
      RunFrom(store.Values(), inputs, detectingInterval, i);
      var outcome, wait := Tick(store, inputs[i], detectingInterval);
      waits := waits + [wait];
    }
    assert inputs[|inputs|..] == [];
    assert waits + [] == waits;
  }

  // ---------------------------------------------------------------------------
  // What one cycle does

  /** Some listed container reports this PID. */
  ghost predicate HasContainer(containers: seq<ContainerRecord>, pid: int) {
    exists c :: 0 <= c < |containers| && containers[c].pid == pid
  }

  /** Every compute process of every device belongs to some listed container. */
  ghost predicate EveryProcessHasContainer(devices: seq<NvmlDevice>, containers: seq<ContainerRecord>) {
    forall i, j :: 0 <= i < |devices| && 0 <= j < |devices[i].computeProcesses| ==>
      HasContainer(containers, devices[i].computeProcesses[j].pid)
  }

  /** When both reads answer, the cycle's gauges are those of the pass over `get_gpu_info`'s list. */
  lemma TickPass(g: GaugeValues, devices: seq<NvmlDevice>, containers: seq<ContainerRecord>, detectingInterval: int)
    ensures WellFormed(GpuInfo(devices)) && DistinctIndexes(GpuInfo(devices))
    ensures TickSpec(g, CycleInput(Some(devices), Some(containers)), detectingInterval).0 ==
            WithGpus(g, GpuInfo(devices), ContainerInfo(containers).entries).0
  {
    GpuInfoFitsPass(devices);
  }

  lemma PassCompletesIff(g: GaugeValues, devices: seq<NvmlDevice>, containers: seq<ContainerRecord>)
    ensures WellFormed(GpuInfo(devices))
    ensures WithGpus(g, GpuInfo(devices), ContainerInfo(containers).entries).1 <==>
            EveryProcessHasContainer(devices, containers)
  {
    var gpus := GpuInfo(devices);
    var info := ContainerInfo(containers).entries;
    GpuInfoFitsPass(devices);
    WithGpusOutcome(g, gpus, info);
    forall i | 0 <= i < |devices|
      ensures AllMatched(gpus[i], info) <==>
              forall j :: 0 <= j < |devices[i].computeProcesses| ==> HasContainer(containers, devices[i].computeProcesses[j].pid)
    {
      AllMatchedIff(i, devices[i], info);
      forall j | 0 <= j < |devices[i].computeProcesses|
        ensures devices[i].computeProcesses[j].pid in info <==> HasContainer(containers, devices[i].computeProcesses[j].pid)
      {
        ContainerInfoKeys(containers, devices[i].computeProcesses[j].pid);
      }
    }
  }

  /**
    A cycle completes exactly when both reads answer, every GPU process belongs
    to a listed container and the interval is a valid sleep length; it raises
    `KeyError` exactly when both reads answer and some GPU process does not.
   */
  lemma TickOutcome(g: GaugeValues, input: CycleInput, detectingInterval: int)
    ensures TickSpec(g, input, detectingInterval).1 == Completed <==>
            && input.devices.Some? && input.containers.Some?
            && EveryProcessHasContainer(input.devices.value, input.containers.value)
            && detectingInterval >= 0
    ensures TickSpec(g, input, detectingInterval).1.Raised? && TickSpec(g, input, detectingInterval).1.error.KeyError? <==>
            && input.devices.Some? && input.containers.Some?
            && !EveryProcessHasContainer(input.devices.value, input.containers.value)
    ensures NextWait(TickSpec(g, input, detectingInterval).1, detectingInterval) ==
            if TickSpec(g, input, detectingInterval).1 == Completed then detectingInterval else 1
  {
    if input.devices.Some? && input.containers.Some? {
      PassCompletesIff(g, input.devices.value, input.containers.value);
    }
  }

  /**
    Device `i` has its six gauges set from its own readings when every process
    of the devices before it belongs to a listed container, whatever its own
    processes are.
   */
  lemma TickSetsDeviceGauges(g: GaugeValues, devices: seq<NvmlDevice>, containers: seq<ContainerRecord>, detectingInterval: int, i: nat)
    requires i < |devices|
    requires forall i', j :: 0 <= i' < i && 0 <= j < |devices[i'].computeProcesses| ==>
               HasContainer(containers, devices[i'].computeProcesses[j].pid)
    ensures DeviceShows(TickSpec(g, CycleInput(Some(devices), Some(containers)), detectingInterval).0, GpuRecordOf(i, devices[i]))
  {
    var gpus := GpuInfo(devices);
    var info := ContainerInfo(containers).entries;
    TickPass(g, devices, containers, detectingInterval);
    forall i' | 0 <= i' < i ensures AllMatched(gpus[i'], info) {
      AllMatchedIff(i', devices[i'], info);
      forall j | 0 <= j < |devices[i'].computeProcesses|
        ensures devices[i'].computeProcesses[j].pid in info
      {
        ContainerInfoKeys(containers, devices[i'].computeProcesses[j].pid);
      }
    }
    assert i <= FailingDevice(gpus, info);
    WithGpusSetsDevice(g, gpus, info, i);
    assert gpus[i] == GpuRecordOf(i, devices[i]);
  }

  /** A device label of no device read this cycle keeps its six children, values included. */
  lemma TickKeepsOtherDevices(g: GaugeValues, input: CycleInput, detectingInterval: int, l: DeviceLabel)
    requires input.devices.Some? ==>
               forall i :: 0 <= i < |input.devices.value| ==>
                 DeviceLabel(i, input.devices.value[i].name, input.devices.value[i].uuid) != l
    ensures SameDeviceAt(g, TickSpec(g, input, detectingInterval).0, l)
  {
    if input.devices.Some? && input.containers.Some? {
      var gpus := GpuInfo(input.devices.value);
      TickPass(g, input.devices.value, input.containers.value, detectingInterval);
      WithGpusKeepsDevice(g, gpus, ContainerInfo(input.containers.value).entries, l);
    }
  }

  /**
    The devices after the one whose unmatched PID raised are not published: a
    device label carried by no device up to the stop keeps its six children.
   */
  lemma TickLeavesDevicesAfterStop(g: GaugeValues, devices: seq<NvmlDevice>, containers: seq<ContainerRecord>, detectingInterval: int, l: DeviceLabel)
    requires forall i :: 0 <= i < Reached(GpuInfo(devices), ContainerInfo(containers).entries) ==>
               DeviceLabel(i, devices[i].name, devices[i].uuid) != l
    ensures SameDeviceAt(g, TickSpec(g, CycleInput(Some(devices), Some(containers)), detectingInterval).0, l)
  {
    var gpus := GpuInfo(devices);
    TickPass(g, devices, containers, detectingInterval);
    forall i | 0 <= i < Reached(gpus, ContainerInfo(containers).entries) ensures LabelOf(gpus[i]) != l {
      assert gpus[i] == GpuRecordOf(i, devices[i]);
    }
    WithGpusKeepsDevice(g, gpus, ContainerInfo(containers).entries, l);
  }

  /**
    A container label whose container name is the name of no container listed
    this cycle keeps its child: the series of an exited container stays at its
    last value.
   */
  lemma TickKeepsGoneContainers(g: GaugeValues, input: CycleInput, detectingInterval: int, l: ContainerLabel)
    requires input.containers.Some? ==>
               forall c :: 0 <= c < |input.containers.value| ==> ContainerName(input.containers.value[c].name) != l.containerName
    ensures SameAt(g.containerGpuMemoryUsage, TickSpec(g, input, detectingInterval).0.containerGpuMemoryUsage, l)
  {
    if input.devices.Some? && input.containers.Some? {
      var containers := input.containers.value;
      var gpus := GpuInfo(input.devices.value);
      var info := ContainerInfo(containers).entries;
      TickPass(g, input.devices.value, containers, detectingInterval);
      forall i, k | 0 <= i < Reached(gpus, info) && 0 <= k < MatchedPrefix(Pids(gpus[i]), info)
        ensures ContainerLabelOf(gpus[i], info[Pids(gpus[i])[k]]) != l
      {
        ContainerInfoValueFrom(containers, Pids(gpus[i])[k]);
      }
      WithGpusKeepsContainer(g, gpus, info, l);
    }
  }

  /**
    A cycle repeated with the same readings changes nothing further and ends the
    same way: the gauges are overwritten, never accumulated.
   */
  lemma TickIdempotent(g: GaugeValues, input: CycleInput, detectingInterval: int)
    ensures TickSpec(TickSpec(g, input, detectingInterval).0, input, detectingInterval) == TickSpec(g, input, detectingInterval)
  {
    if input.devices.Some? && input.containers.Some? {
      var gpus := GpuInfo(input.devices.value);
      var info := ContainerInfo(input.containers.value).entries;
      GpuInfoFitsPass(input.devices.value);
      var pass := WithGpus(g, gpus, info);
      assert TickSpec(g, input, detectingInterval) == PassEnd(pass, detectingInterval);
      assert TickSpec(pass.0, input, detectingInterval) == PassEnd(WithGpus(pass.0, gpus, info), detectingInterval);
      WithGpusIdempotent(g, gpus, info);
    }
  }

  /** Over any run of cycles no child of any gauge disappears, and every sleep is 1 or the interval. */
  lemma {:induction false} RunNeverEvicts(g: GaugeValues, inputs: seq<CycleInput>, detectingInterval: int, n: nat)
    requires n <= |inputs|
    ensures Grows(Run(g, inputs[..n], detectingInterval).0, Run(g, inputs, detectingInterval).0)
    decreases |inputs|
  {
    if n > 0 {
      var t := TickSpec(g, inputs[0], detectingInterval);
      assert inputs[..n][0] == inputs[0] && inputs[..n][1..] == inputs[1..][..n - 1];
      RunNeverEvicts(t.0, inputs[1..], detectingInterval, n - 1);
    } else {
      assert inputs[..n] == [];
    }
  }

  // ---------------------------------------------------------------------------
  // The cycle with unmatched PIDs dropped instead of raising

  /**
    One cycle with the unmatched branch discarding the PID instead of raising:
    a GPU process without a container is skipped, so the cycle never raises
    `KeyError` and completes whenever both reads answer and the interval is a
    valid sleep length.
   */
  function CorrectedTickSpec(g: GaugeValues, input: CycleInput, detectingInterval: int): (r: (GaugeValues, Outcome))
    ensures input.devices.None? ==> r == (g, Raised(NvmlError))
    ensures input.devices.Some? && input.containers.None? ==> r == (g, Raised(DockerError))
    ensures r.1 == Completed <==> input.devices.Some? && input.containers.Some? && detectingInterval >= 0
    ensures !(r.1.Raised? && r.1.error.KeyError?)
  {
    match input.devices
    case None => (g, Raised(NvmlError))
    case Some(devices) =>
      match input.containers
      case None => (g, Raised(DockerError))
      case Some(containers) =>
        GpuInfoFitsPass(devices);
        var h := WithGpusSkipping(g, GpuInfo(devices), ContainerInfo(containers).entries);
        if detectingInterval < 0 then (h, Raised(SleepValueError)) else (h, Completed)
  }

  /** The corrected cycle sets the six gauges of every device read, whatever the container list. */
  lemma CorrectedTickSetsEveryDevice(g: GaugeValues, devices: seq<NvmlDevice>, containers: seq<ContainerRecord>, detectingInterval: int, i: nat)
    requires i < |devices|
    ensures DeviceShows(CorrectedTickSpec(g, CycleInput(Some(devices), Some(containers)), detectingInterval).0, GpuRecordOf(i, devices[i]))
  {
    GpuInfoFitsPass(devices);
    SkippingSetsEveryDevice(g, GpuInfo(devices), ContainerInfo(containers).entries, i);
  }

  /** When every GPU process has a container the corrected cycle and the cycle as written agree. */
  lemma CorrectedTickAgrees(g: GaugeValues, devices: seq<NvmlDevice>, containers: seq<ContainerRecord>, detectingInterval: int)
    requires EveryProcessHasContainer(devices, containers)
    ensures CorrectedTickSpec(g, CycleInput(Some(devices), Some(containers)), detectingInterval) ==
            TickSpec(g, CycleInput(Some(devices), Some(containers)), detectingInterval)
  {
    var gpus := GpuInfo(devices);
    var info := ContainerInfo(containers).entries;
    PassCompletesIff(g, devices, containers);
    GpuInfoFitsPass(devices);
    WithGpusOutcome(g, gpus, info);
    SkippingAgreesWhenMatched(g, gpus, info);
  }
}
