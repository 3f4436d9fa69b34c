/**
  Concrete cycles worked through the model: a matched process, a device whose
  only process has no container, and a cycle that a PID without a container
  cuts short, next to what the pass that skips such PIDs does with it.
 */
module Scenarios {
  import opened Wrappers
  import opened PyDict
  import opened Readings
  import opened Gauges
  import opened DetectLoop

  /** A device with one compute process of `bytes` bytes under `pid`. */
  function OneProcessDevice(uuid: string, pid: int, bytes: nat): NvmlDevice {
    NvmlDevice("A100", uuid, 40, 20, 250000, 400000, 1073741824, 42949672960, [ComputeProcess(pid, bytes)])
  }

  function TrainerLabel(uuid: string): ContainerLabel {
    ContainerLabel(0, "A100", uuid, "trainer")
  }

  /** `get_gpu_info` for a single one-process device. */
  lemma OneProcessRecord(uuid: string, pid: int, bytes: nat)
    ensures GpuInfo([OneProcessDevice(uuid, pid, bytes)]) ==
            [GpuRecord(0, "A100", uuid, 40, 20, 250.0, 400.0, 1024.0, 40960.0,
                       Dict([pid], map[pid := MiB(bytes)]))]
  {
    var ps := ProcessPairs([ComputeProcess(pid, bytes)]);
    assert ps == [(pid, MiB(bytes))];
    assert ps[..0] == [];
    assert FromPairs(ps) == Set(Empty(), pid, MiB(bytes));
  }

  /** `get_container_info` for the single container "/trainer". */
  lemma TrainerContainerInfo(pid: int)
    ensures ContainerInfo([ContainerRecord(pid, "/trainer")]) == Dict([pid], map[pid := "trainer"])
  {
    var ps := ContainerPairs([ContainerRecord(pid, "/trainer")]);
    assert ps == [(pid, "trainer")];
    assert ps[..0] == [];
    assert FromPairs(ps) == Set(Empty(), pid, "trainer");
  }

  /**
    Process 111 of device 0 uses 536870912 bytes and container "/trainer" runs
    as PID 111: the cycle completes, the container child is 512 MiB, and the
    next sleep is the configured interval.
   */
  lemma MatchedProcessScenario()
    ensures var r := TickSpec(NoGauges(), CycleInput(Some([OneProcessDevice("GPU-0", 111, 536870912)]),
                                                     Some([ContainerRecord(111, "/trainer")])), 5);
            && r.1 == Completed
            && NextWait(r.1, 5) == 5
            && r.0.containerGpuMemoryUsage == map[TrainerLabel("GPU-0") := 512.0]
            && r.0.memoryUsage == map[DeviceLabel(0, "A100", "GPU-0") := 1024.0]
  {
    OneProcessRecord("GPU-0", 111, 536870912);
    TrainerContainerInfo(111);
    TickPass(NoGauges(), [OneProcessDevice("GPU-0", 111, 536870912)], [ContainerRecord(111, "/trainer")], 5);
  }

  /**
    Process 222 of device 0 has no container and no container is listed: the
    device gauges are set, no container child appears, and the lookup at the
    unmatched PID raises, so the next sleep is one second.
   */
  lemma EmptyContainerListScenario()
    ensures var r := TickSpec(NoGauges(), CycleInput(Some([OneProcessDevice("GPU-0", 222, 268435456)]), Some([])), 5);
            && r.1 == Raised(KeyError("container_info"))
            && NextWait(r.1, 5) == 1
            && r.0.containerGpuMemoryUsage == map[]
            && r.0.memoryUsage == map[DeviceLabel(0, "A100", "GPU-0") := 1024.0]
            && r.0.coreUtilization == map[DeviceLabel(0, "A100", "GPU-0") := 40.0]
  {
    OneProcessRecord("GPU-0", 222, 268435456);
    assert ContainerPairs([]) == [];
    TickPass(NoGauges(), [OneProcessDevice("GPU-0", 222, 268435456)], [], 5);
  }

  /** Device 0 runs an unlisted process 222 before process 111 of "/trainer"; device 1 runs nothing. */
  function AbandonedDevices(): seq<NvmlDevice> {
    [ NvmlDevice("A100", "GPU-0", 40, 20, 250000, 400000, 1073741824, 42949672960,
                 [ComputeProcess(222, 104857600), ComputeProcess(111, 536870912)]),
      NvmlDevice("A100", "GPU-1", 0, 0, 50000, 400000, 0, 42949672960, []) ]
  }

  function AbandonedInput(): CycleInput {
    CycleInput(Some(AbandonedDevices()), Some([ContainerRecord(111, "/trainer")]))
  }

  /** Two processes with different PIDs give a two-key table in their order. */
  lemma TwoProcessTable(p: ComputeProcess, q: ComputeProcess)
    requires p.pid != q.pid
    ensures ContainerMemoryUsage([p, q]) ==
            Dict([p.pid, q.pid], map[p.pid := MiB(p.usedGpuMemory), q.pid := MiB(q.usedGpuMemory)])
  {
    var ps := ProcessPairs([p, q]);
    var first: Dict<int, real> := Set(Empty(), p.pid, MiB(p.usedGpuMemory));
    assert ps[..1][..0] == [] && ps[..1][0] == (p.pid, MiB(p.usedGpuMemory));
    assert FromPairs(ps[..1]) == first;
    assert first == Dict([p.pid], map[p.pid := MiB(p.usedGpuMemory)]);
    assert ps[1] == (q.pid, MiB(q.usedGpuMemory));
    assert FromPairs(ps) == Set(first, q.pid, MiB(q.usedGpuMemory));
  }

  /** Device 0's PID table keeps NVML's order: 222 first, then 111. */
  lemma AbandonedTable()
    ensures Pids(GpuInfo(AbandonedDevices())[0]) == [222, 111]
    ensures Memory(GpuInfo(AbandonedDevices())[0]) == map[222 := 100.0, 111 := 512.0]
  {
    var devices := AbandonedDevices();
    TwoProcessTable(ComputeProcess(222, 104857600), ComputeProcess(111, 536870912));
    assert MiB(104857600) == 100.0 && MiB(536870912) == 512.0;
    assert GpuInfo(devices)[0] == GpuRecordOf(0, devices[0]);
  }

  /** The pass as written over the abandoned cycle stops at device 0. */
  lemma AbandonedPassStops()
    ensures WellFormed(GpuInfo(AbandonedDevices())) && DistinctIndexes(GpuInfo(AbandonedDevices()))
    ensures ContainerInfo([ContainerRecord(111, "/trainer")]).entries == map[111 := "trainer"]
    ensures Pids(GpuInfo(AbandonedDevices())[0]) == [222, 111]
    ensures Reached(GpuInfo(AbandonedDevices()), map[111 := "trainer"]) == 1
    ensures MatchedPrefix(Pids(GpuInfo(AbandonedDevices())[0]), map[111 := "trainer"]) == 0
    ensures !WithGpus(NoGauges(), GpuInfo(AbandonedDevices()), map[111 := "trainer"]).1
  {
    var gpus, info := GpuInfo(AbandonedDevices()), map[111 := "trainer"];
    TrainerContainerInfo(111);
    AbandonedTable();
    GpuInfoFitsPass(AbandonedDevices());
    assert !AllMatched(gpus[0], info) by {
      assert Pids(gpus[0])[0] !in info;
    }
    WithGpusOutcome(NoGauges(), gpus, info);
  }

  lemma AbandonedOutcome()
    ensures TickSpec(NoGauges(), AbandonedInput(), 5).1 == Raised(KeyError("container_info"))
  {
    AbandonedPassStops();
  }

  lemma AbandonedSetsDevice0()
    ensures DeviceLabel(0, "A100", "GPU-0") in TickSpec(NoGauges(), AbandonedInput(), 5).0.coreUtilization
  {
    TickSetsDeviceGauges(NoGauges(), AbandonedDevices(), [ContainerRecord(111, "/trainer")], 5, 0);
  }

  lemma AbandonedSkipsDevice1()
    ensures DeviceLabel(1, "A100", "GPU-1") !in TickSpec(NoGauges(), AbandonedInput(), 5).0.coreUtilization
  {
    AbandonedPassStops();
    TickLeavesDevicesAfterStop(NoGauges(), AbandonedDevices(), [ContainerRecord(111, "/trainer")], 5, DeviceLabel(1, "A100", "GPU-1"));
  }

  lemma AbandonedSkipsTrainer()
    ensures TrainerLabel("GPU-0") !in TickSpec(NoGauges(), AbandonedInput(), 5).0.containerGpuMemoryUsage
  {
    AbandonedPassStops();
    TickPass(NoGauges(), AbandonedDevices(), [ContainerRecord(111, "/trainer")], 5);
    WithGpusKeepsContainer(NoGauges(), GpuInfo(AbandonedDevices()), map[111 := "trainer"], TrainerLabel("GPU-0"));
  }

  /**
    As written the lookup at PID 222 raises: device 0's gauges are set, but
    neither the trainer's child nor device 1's gauges are, and the next sleep
    is one second.
   */
  lemma UnmatchedPidAbandonsCycle()
    ensures var r := TickSpec(NoGauges(), AbandonedInput(), 5);
            && r.1 == Raised(KeyError("container_info"))
            && NextWait(r.1, 5) == 1
            && DeviceLabel(0, "A100", "GPU-0") in r.0.coreUtilization
            && TrainerLabel("GPU-0") !in r.0.containerGpuMemoryUsage
            && DeviceLabel(1, "A100", "GPU-1") !in r.0.coreUtilization
  {
    AbandonedOutcome();
    AbandonedSetsDevice0();
    AbandonedSkipsDevice1();
    AbandonedSkipsTrainer();
  }

  lemma SkippedSetsTrainer()
    ensures var h := CorrectedTickSpec(NoGauges(), AbandonedInput(), 5).0.containerGpuMemoryUsage;
            TrainerLabel("GPU-0") in h && h[TrainerLabel("GPU-0")] == 512.0
  {
    var gpus, info := GpuInfo(AbandonedDevices()), map[111 := "trainer"];
    TrainerContainerInfo(111);
    GpuInfoFitsPass(AbandonedDevices());
    AbandonedTable();
    assert CorrectedTickSpec(NoGauges(), AbandonedInput(), 5).0 == WithGpusSkipping(NoGauges(), gpus, info);
    assert gpus[0] == GpuRecordOf(0, AbandonedDevices()[0]);
    SkippingSetsContainer(NoGauges(), gpus, info, 0, 1);
  }

  /**
    The same cycle with unmatched PIDs skipped completes: the trainer's child
    holds its 512 MiB and device 1's gauges are set.
   */
  lemma UnmatchedPidSkipped()
    ensures var r := CorrectedTickSpec(NoGauges(), AbandonedInput(), 5);
            && r.1 == Completed
            && TrainerLabel("GPU-0") in r.0.containerGpuMemoryUsage
            && r.0.containerGpuMemoryUsage[TrainerLabel("GPU-0")] == 512.0
            && DeviceLabel(1, "A100", "GPU-1") in r.0.coreUtilization
  {
    SkippedSetsTrainer();
    CorrectedTickSetsEveryDevice(NoGauges(), AbandonedDevices(), [ContainerRecord(111, "/trainer")], 5, 1);
  }
}
