/**
  The two collaborator reads of one cycle and the records the exporter shapes
  from them: the container map of `get_container_info` and the device list of
  `get_gpu_info`. The NVML and Docker answers are given as input values.
 */
module Readings {
  import opened PyDict

  /** One entry of `nvmlDeviceGetComputeRunningProcesses`. */
  datatype ComputeProcess = ComputeProcess(pid: int, usedGpuMemory: nat)

  /** What NVML answers for one device handle. Power is in milliwatts, memory in bytes. */
  datatype NvmlDevice = NvmlDevice(
    name: string,
    uuid: string,
    gpuUtilization: nat,
    memoryUtilization: nat,
    powerUsageMilliwatts: nat,
    enforcedPowerLimitMilliwatts: nat,
    memoryUsedBytes: nat,
    memoryTotalBytes: nat,
    computeProcesses: seq<ComputeProcess>)

  /** A listed container: `attrs['State']['Pid']` and `attrs['Name']`. */
  datatype ContainerRecord = ContainerRecord(pid: int, name: string)

  /** The per-device dict appended by `get_gpu_info`. */
  datatype GpuRecord = GpuRecord(
    index: nat,
    name: string,
    uuid: string,
    coreUtilization: int,
    memoryUtilization: int,
    powerUsage: real,
    powerLimit: real,
    memoryUsage: real,
    memoryTotal: real,
    containerMemoryUsage: Dict<int, real>)

  /** `name[1:]`: the first character is dropped whatever it is; an empty name stays empty. */
  function ContainerName(raw: string): (n: string)
    ensures raw != [] ==> [raw[0]] + n == raw
    ensures raw == [] ==> n == []
  {
    if raw == [] then [] else raw[1..]
  }

  lemma ContainerNameExamples()
    ensures ContainerName("/web") == "web"
    ensures ContainerName("abc") == "bc"
    ensures ContainerName("") == ""
  {
  }

  /** `x / 1024 / 1024`, bytes to MiB, exact. */
  function MiB(bytes: int): (m: real)
    ensures m * 1048576.0 == bytes as real
  {
    bytes as real / 1024.0 / 1024.0
  }

  /** `x / 1000`, milliwatts to watts, exact. */
  function Watts(milliwatts: int): (w: real)
    ensures w * 1000.0 == milliwatts as real
  {
    milliwatts as real / 1000.0
  }

  // ---------------------------------------------------------------------------
  // get_container_info

  function ContainerPairs(containers: seq<ContainerRecord>): seq<(int, string)> {
    seq(|containers|, i requires 0 <= i < |containers| => (containers[i].pid, ContainerName(containers[i].name)))
  }

  /** The dict `container_info` after the loop over the listed containers. */
  function ContainerInfo(containers: seq<ContainerRecord>): Dict<int, string> {
    FromPairs(ContainerPairs(containers))
  }

  method GetContainerInfo(containers: seq<ContainerRecord>) returns (info: Dict<int, string>)
    ensures info == ContainerInfo(containers)
  {
    info := Empty();
    for i := 0 to |containers|
      invariant info == FromPairs(ContainerPairs(containers)[..i])
    {
      var container := containers[i];
      assert ContainerPairs(containers)[..i + 1][..i] == ContainerPairs(containers)[..i];
      info := Set(info, container.pid, ContainerName(container.name));
    }
    assert ContainerPairs(containers)[..|containers|] == ContainerPairs(containers);
  }

  /** The map has a key exactly for each PID some listed container reports. */
  lemma ContainerInfoKeys(containers: seq<ContainerRecord>, pid: int)
    ensures pid in ContainerInfo(containers).entries <==>
            exists i :: 0 <= i < |containers| && containers[i].pid == pid
  {
    var ps := ContainerPairs(containers);
    FromPairsKeys(ps, pid);
    if exists i :: 0 <= i < |containers| && containers[i].pid == pid {
      var i :| 0 <= i < |containers| && containers[i].pid == pid;
      assert ps[i].0 == pid;
    }
  }

  /** Every name in the map is the stripped name of a listed container with that PID. */
  lemma ContainerInfoValueFrom(containers: seq<ContainerRecord>, pid: int)
    requires pid in ContainerInfo(containers).entries
    ensures exists i :: 0 <= i < |containers| && containers[i].pid == pid &&
                        ContainerName(containers[i].name) == ContainerInfo(containers).entries[pid]
  {
    var ps := ContainerPairs(containers);
    FromPairsValueFrom(ps, pid);
    var i :| 0 <= i < |ps| && ps[i].0 == pid && ps[i].1 == FromPairs(ps).entries[pid];
    assert containers[i].pid == pid;
  }

  /** Of two containers with the same PID the later one in list order gives the name. */
  lemma ContainerInfoLaterWins(containers: seq<ContainerRecord>, i: nat)
    requires i < |containers|
    requires forall j :: i < j < |containers| ==> containers[j].pid != containers[i].pid
    ensures containers[i].pid in ContainerInfo(containers).entries
    ensures ContainerInfo(containers).entries[containers[i].pid] == ContainerName(containers[i].name)
  {
    var ps := ContainerPairs(containers);
    assert forall j :: i < j < |ps| ==> ps[j].0 != ps[i].0 by {
      forall j | i < j < |ps| ensures ps[j].0 != ps[i].0 {
        assert ps[j].0 == containers[j].pid;
      }
    }
    FromPairsLastWins(ps, i);
  }

  // ---------------------------------------------------------------------------
  // get_gpu_info

  function ProcessPairs(processes: seq<ComputeProcess>): seq<(int, real)> {
    seq(|processes|, i requires 0 <= i < |processes| => (processes[i].pid, MiB(processes[i].usedGpuMemory)))
  }

  /** The dict `container_memory_usage` of one device. */
  function ContainerMemoryUsage(processes: seq<ComputeProcess>): Dict<int, real> {
    FromPairs(ProcessPairs(processes))
  }

  /** The record appended for the device at position `index`. */
  function GpuRecordOf(index: nat, device: NvmlDevice): GpuRecord {
    GpuRecord(
      index, device.name, device.uuid,
      device.gpuUtilization, device.memoryUtilization,
      Watts(device.powerUsageMilliwatts), Watts(device.enforcedPowerLimitMilliwatts),
      MiB(device.memoryUsedBytes), MiB(device.memoryTotalBytes),
      ContainerMemoryUsage(device.computeProcesses))
  }

  /** The list `gpu_info` returned for the devices `0 .. nvmlDeviceGetCount() - 1`. */
  function GpuInfo(devices: seq<NvmlDevice>): seq<GpuRecord> {
    seq(|devices|, i requires 0 <= i < |devices| => GpuRecordOf(i, devices[i]))
  }

  method GetContainerMemoryUsage(processes: seq<ComputeProcess>) returns (usage: Dict<int, real>)
    ensures usage == ContainerMemoryUsage(processes)
  {
    usage := Empty();
    for i := 0 to |processes|
      invariant usage == FromPairs(ProcessPairs(processes)[..i])
    {
      var process := processes[i];
      assert ProcessPairs(processes)[..i + 1][..i] == ProcessPairs(processes)[..i];
      usage := Set(usage, process.pid, MiB(process.usedGpuMemory));
    }
    assert ProcessPairs(processes)[..|processes|] == ProcessPairs(processes);
  }

  method GetGpuInfo(devices: seq<NvmlDevice>) returns (info: seq<GpuRecord>)
    ensures |info| == |devices|
    ensures forall i :: 0 <= i < |info| ==> info[i].index == i
    ensures info == GpuInfo(devices)
  {
    info := [];
    for i := 0 to |devices|
      invariant |info| == i
      invariant forall j :: 0 <= j < i ==> info[j] == GpuRecordOf(j, devices[j])
    {
      var device := devices[i];
      var usage := GetContainerMemoryUsage(device.computeProcesses);
      info := info + [GpuRecord(
        i, device.name, device.uuid,
        device.gpuUtilization, device.memoryUtilization,
        Watts(device.powerUsageMilliwatts), Watts(device.enforcedPowerLimitMilliwatts),
        MiB(device.memoryUsedBytes), MiB(device.memoryTotalBytes),
        usage)];
    }
  }

  /** One entry per device, in device order, each carrying its own position as index. */
  lemma GpuInfoShape(devices: seq<NvmlDevice>)
    ensures |GpuInfo(devices)| == |devices|
    ensures forall i :: 0 <= i < |devices| ==>
              GpuInfo(devices)[i].index == i && GpuInfo(devices)[i].name == devices[i].name &&
              GpuInfo(devices)[i].uuid == devices[i].uuid && Valid(GpuInfo(devices)[i].containerMemoryUsage)
  {
    forall i | 0 <= i < |devices| ensures Valid(GpuInfo(devices)[i].containerMemoryUsage) {
      FromPairsValid(ProcessPairs(devices[i].computeProcesses));
    }
  }

  /** The table has a key exactly for each PID among the device's compute processes. */
  lemma ContainerMemoryUsageKeys(processes: seq<ComputeProcess>, pid: int)
    ensures pid in ContainerMemoryUsage(processes).entries <==>
            exists i :: 0 <= i < |processes| && processes[i].pid == pid
  {
    var ps := ProcessPairs(processes);
    FromPairsKeys(ps, pid);
    if exists i :: 0 <= i < |processes| && processes[i].pid == pid {
      var i :| 0 <= i < |processes| && processes[i].pid == pid;
      assert ps[i].0 == pid;
    }
  }

  /** A PID listed twice keeps the memory of its last listing, converted to MiB. */
  lemma ContainerMemoryUsageLaterWins(processes: seq<ComputeProcess>, i: nat)
    requires i < |processes|
    requires forall j :: i < j < |processes| ==> processes[j].pid != processes[i].pid
    ensures processes[i].pid in ContainerMemoryUsage(processes).entries
    ensures ContainerMemoryUsage(processes).entries[processes[i].pid] == MiB(processes[i].usedGpuMemory)
  {
    var ps := ProcessPairs(processes);
    assert forall j :: i < j < |ps| ==> ps[j].0 != ps[i].0 by {
      forall j | i < j < |ps| ensures ps[j].0 != ps[i].0 {
        assert ps[j].0 == processes[j].pid;
      }
    }
    FromPairsLastWins(ps, i);
  }

  /**
    The table's keys are iterated in the order of the PIDs' first listing: every
    listing of a later-iterated PID comes after some listing of an earlier one.
   */
  lemma ContainerMemoryUsageOrder(processes: seq<ComputeProcess>, a: nat, b: nat, j: nat)
    requires a < b < |ContainerMemoryUsage(processes).keys|
    requires j < |processes| && processes[j].pid == ContainerMemoryUsage(processes).keys[b]
    ensures exists m :: 0 <= m < j && processes[m].pid == ContainerMemoryUsage(processes).keys[a]
  {
    var ps := ProcessPairs(processes);
    assert ps[j].0 == processes[j].pid;
    FromPairsOrder(ps, a, b, j);
    var m :| 0 <= m < j && ps[m].0 == FromPairs(ps).keys[a];
    assert processes[m].pid == ps[m].0;
  }
}
