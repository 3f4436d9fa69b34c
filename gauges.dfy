/**
  The seven gauges created at the start of `detecting_loop` and what one pass
  over the device list does to them. A gauge is a map from its label tuple to
  the last value `.set()` gave it; children are created on first use and never
  removed.
 */
module Gauges {
  import opened PyDict
  import opened Readings

  /** Labels ('index', 'name', 'uuid') of the six device gauges. */
  datatype DeviceLabel = DeviceLabel(index: int, name: string, uuid: string)

  /** Labels ('index', 'name', 'uuid', 'container_name') of `container_gpu_memory_usage`. */
  datatype ContainerLabel = ContainerLabel(index: int, name: string, uuid: string, containerName: string)

  function LabelOf(gpu: GpuRecord): DeviceLabel {
    DeviceLabel(gpu.index, gpu.name, gpu.uuid)
  }

  function ContainerLabelOf(gpu: GpuRecord, containerName: string): ContainerLabel {
    ContainerLabel(gpu.index, gpu.name, gpu.uuid, containerName)
  }

  /** The current value of every child of the seven gauges. */
  datatype GaugeValues = GaugeValues(
    coreUtilization: map<DeviceLabel, real>,
    memoryUtilization: map<DeviceLabel, real>,
    powerUsage: map<DeviceLabel, real>,
    powerLimit: map<DeviceLabel, real>,
    memoryUsage: map<DeviceLabel, real>,
    memoryTotal: map<DeviceLabel, real>,
    containerGpuMemoryUsage: map<ContainerLabel, real>)

  function NoGauges(): GaugeValues {
    GaugeValues(map[], map[], map[], map[], map[], map[], map[])
  }

  /** The six device gauges at `gpu`'s label hold that record's readings. */
  ghost predicate DeviceShows(g: GaugeValues, gpu: GpuRecord) {
    var l := LabelOf(gpu);
    && l in g.coreUtilization && g.coreUtilization[l] == gpu.coreUtilization as real
    && l in g.memoryUtilization && g.memoryUtilization[l] == gpu.memoryUtilization as real
    && l in g.powerUsage && g.powerUsage[l] == gpu.powerUsage
    && l in g.powerLimit && g.powerLimit[l] == gpu.powerLimit
    && l in g.memoryUsage && g.memoryUsage[l] == gpu.memoryUsage
    && l in g.memoryTotal && g.memoryTotal[l] == gpu.memoryTotal
  }

  ghost predicate SameAt<L>(m: map<L, real>, m': map<L, real>, l: L) {
    (l in m <==> l in m') && (l in m ==> m[l] == m'[l])
  }

  /** The six device gauges have the same child (or none) at `l` in both. */
  ghost predicate SameDeviceAt(g: GaugeValues, h: GaugeValues, l: DeviceLabel) {
    && SameAt(g.coreUtilization, h.coreUtilization, l)
    && SameAt(g.memoryUtilization, h.memoryUtilization, l)
    && SameAt(g.powerUsage, h.powerUsage, l)
    && SameAt(g.powerLimit, h.powerLimit, l)
    && SameAt(g.memoryUsage, h.memoryUsage, l)
    && SameAt(g.memoryTotal, h.memoryTotal, l)
  }

  ghost predicate SameDevices(g: GaugeValues, h: GaugeValues) {
    && g.coreUtilization == h.coreUtilization
    && g.memoryUtilization == h.memoryUtilization
    && g.powerUsage == h.powerUsage
    && g.powerLimit == h.powerLimit
    && g.memoryUsage == h.memoryUsage
    && g.memoryTotal == h.memoryTotal
  }

  /** No child of any gauge present in `g` is missing from `h`. */
  ghost predicate Grows(g: GaugeValues, h: GaugeValues) {
    && g.coreUtilization.Keys <= h.coreUtilization.Keys
    && g.memoryUtilization.Keys <= h.memoryUtilization.Keys
    && g.powerUsage.Keys <= h.powerUsage.Keys
    && g.powerLimit.Keys <= h.powerLimit.Keys
    && g.memoryUsage.Keys <= h.memoryUsage.Keys
    && g.memoryTotal.Keys <= h.memoryTotal.Keys
    && g.containerGpuMemoryUsage.Keys <= h.containerGpuMemoryUsage.Keys
  }

  /** Every PID in `pids` is a key of the device's memory table. */
  ghost predicate Listed(gpu: GpuRecord, pids: seq<int>) {
    forall j :: 0 <= j < |pids| ==> pids[j] in gpu.containerMemoryUsage.entries
  }

  ghost predicate WellFormed(gpus: seq<GpuRecord>) {
    forall i :: 0 <= i < |gpus| ==> Listed(gpus[i], gpus[i].containerMemoryUsage.keys)
  }

  ghost predicate DistinctIndexes(gpus: seq<GpuRecord>) {
    forall i, j :: 0 <= i < j < |gpus| ==> gpus[i].index != gpus[j].index
  }

  // ---------------------------------------------------------------------------
  // The pass over `gpu_info` as written

  /** The six `.set()` calls for one device. */
  function WithDevice(g: GaugeValues, gpu: GpuRecord): (h: GaugeValues)
    ensures DeviceShows(h, gpu)
    ensures forall l :: l != LabelOf(gpu) ==> SameDeviceAt(g, h, l)
    ensures h.containerGpuMemoryUsage == g.containerGpuMemoryUsage
    ensures Grows(g, h)
  {
    var l := LabelOf(gpu);
    g.(coreUtilization := g.coreUtilization[l := gpu.coreUtilization as real],
       memoryUtilization := g.memoryUtilization[l := gpu.memoryUtilization as real],
       powerUsage := g.powerUsage[l := gpu.powerUsage],
       powerLimit := g.powerLimit[l := gpu.powerLimit],
       memoryUsage := g.memoryUsage[l := gpu.memoryUsage],
       memoryTotal := g.memoryTotal[l := gpu.memoryTotal])
  }

  /**
    The inner loop over the remaining `pids` of one device: a PID in the
    container map sets the container gauge; the first PID that is not raises
    (`gpu['container_info']` is not a key of the record), which the result's
    `false` stands for.
   */
  function WithPids(g: GaugeValues, gpu: GpuRecord, pids: seq<int>, containerInfo: map<int, string>)
    : (r: (GaugeValues, bool))
    requires Listed(gpu, pids)
    ensures SameDevices(g, r.0)
    ensures Grows(g, r.0)
    decreases |pids|
  {
    if pids == [] then (g, true)
    else if pids[0] !in containerInfo then (g, false)
    else
      var l := ContainerLabelOf(gpu, containerInfo[pids[0]]);
      var v := gpu.containerMemoryUsage.entries[pids[0]];
      WithPids(g.(containerGpuMemoryUsage := g.containerGpuMemoryUsage[l := v]), gpu, pids[1..], containerInfo)
  }

  /** One iteration of `for gpu in gpu_info`. */
  function WithGpu(g: GaugeValues, gpu: GpuRecord, containerInfo: map<int, string>): (GaugeValues, bool)
    requires Listed(gpu, gpu.containerMemoryUsage.keys)
  {
    WithPids(WithDevice(g, gpu), gpu, gpu.containerMemoryUsage.keys, containerInfo)
  }

  /** The whole loop `for gpu in gpu_info`, abandoned at the first raise. */
  function WithGpus(g: GaugeValues, gpus: seq<GpuRecord>, containerInfo: map<int, string>)
    : (r: (GaugeValues, bool))
    requires WellFormed(gpus)
    ensures Grows(g, r.0)
    decreases |gpus|
  {
    if gpus == [] then (g, true)
    else
      var first := WithGpu(g, gpus[0], containerInfo);
      if first.1 then WithGpus(first.0, gpus[1..], containerInfo) else first
  }

  // ---------------------------------------------------------------------------
  // Where the pass stops

  /** How many leading `pids` have a container; the next one, if any, has none. */
  function MatchedPrefix(pids: seq<int>, containerInfo: map<int, string>): (n: nat)
    ensures n <= |pids|
    ensures forall j :: 0 <= j < n ==> pids[j] in containerInfo
    ensures n < |pids| ==> pids[n] !in containerInfo
  {
    if pids == [] || pids[0] !in containerInfo then 0
    else 1 + MatchedPrefix(pids[1..], containerInfo)
  }

  predicate AllMatched(gpu: GpuRecord, containerInfo: map<int, string>) {
    forall j :: 0 <= j < |gpu.containerMemoryUsage.keys| ==> gpu.containerMemoryUsage.keys[j] in containerInfo
  }

  /** The position of the first device with a PID outside the container map, or `|gpus|`. */
  function FailingDevice(gpus: seq<GpuRecord>, containerInfo: map<int, string>): (n: nat)
    ensures n <= |gpus|
    ensures forall i :: 0 <= i < n ==> AllMatched(gpus[i], containerInfo)
    ensures n < |gpus| ==> !AllMatched(gpus[n], containerInfo)
  {
    if gpus == [] || !AllMatched(gpus[0], containerInfo) then 0
    else 1 + FailingDevice(gpus[1..], containerInfo)
  }

  /** How many devices get their device gauges set: up to and including the failing one. */
  function Reached(gpus: seq<GpuRecord>, containerInfo: map<int, string>): (n: nat)
    ensures n <= |gpus|
    ensures FailingDevice(gpus, containerInfo) < |gpus| ==> n == FailingDevice(gpus, containerInfo) + 1
    ensures FailingDevice(gpus, containerInfo) == |gpus| ==> n == |gpus|
  {
    var f := FailingDevice(gpus, containerInfo);
    if f < |gpus| then f + 1 else |gpus|
  }

  // ---------------------------------------------------------------------------
  // Properties of one device's inner loop

  /** The inner loop completes exactly when every PID has a container. */
  lemma {:induction false} WithPidsOutcome(g: GaugeValues, gpu: GpuRecord, pids: seq<int>, containerInfo: map<int, string>)
    requires Listed(gpu, pids)
    ensures WithPids(g, gpu, pids, containerInfo).1 <==> MatchedPrefix(pids, containerInfo) == |pids|
    decreases |pids|
  {
    if pids != [] && pids[0] in containerInfo {
      var l := ContainerLabelOf(gpu, containerInfo[pids[0]]);
      var v := gpu.containerMemoryUsage.entries[pids[0]];
      WithPidsOutcome(g.(containerGpuMemoryUsage := g.containerGpuMemoryUsage[l := v]), gpu, pids[1..], containerInfo);
    }
  }

  /** A container label that no PID before the stopping point maps to keeps its child. */
  lemma {:induction false} WithPidsKeeps(g: GaugeValues, gpu: GpuRecord, pids: seq<int>, containerInfo: map<int, string>, l: ContainerLabel)
    requires Listed(gpu, pids)
    requires forall j :: 0 <= j < MatchedPrefix(pids, containerInfo) ==> ContainerLabelOf(gpu, containerInfo[pids[j]]) != l
    ensures SameAt(g.containerGpuMemoryUsage, WithPids(g, gpu, pids, containerInfo).0.containerGpuMemoryUsage, l)
    decreases |pids|
  {
    if pids != [] && pids[0] in containerInfo {
      var l0 := ContainerLabelOf(gpu, containerInfo[pids[0]]);
      var v := gpu.containerMemoryUsage.entries[pids[0]];
      var g' := g.(containerGpuMemoryUsage := g.containerGpuMemoryUsage[l0 := v]);
      assert l0 != l;
      forall j | 0 <= j < MatchedPrefix(pids[1..], containerInfo)
        ensures ContainerLabelOf(gpu, containerInfo[pids[1..][j]]) != l
      {
        assert pids[1..][j] == pids[j + 1];
      }
      WithPidsKeeps(g', gpu, pids[1..], containerInfo, l);
    }
  }

  /**
    A PID before the stopping point sets the child of its container's label to
    its memory, unless a later PID before the stopping point maps to the same
    container name and overwrites it.
   */
  lemma {:induction false} WithPidsSets(g: GaugeValues, gpu: GpuRecord, pids: seq<int>, containerInfo: map<int, string>, k: nat)
    requires Listed(gpu, pids)
    requires k < MatchedPrefix(pids, containerInfo)
    requires forall j :: k < j < MatchedPrefix(pids, containerInfo) ==> containerInfo[pids[j]] != containerInfo[pids[k]]
    ensures ContainerLabelOf(gpu, containerInfo[pids[k]]) in WithPids(g, gpu, pids, containerInfo).0.containerGpuMemoryUsage
    ensures WithPids(g, gpu, pids, containerInfo).0.containerGpuMemoryUsage[ContainerLabelOf(gpu, containerInfo[pids[k]])]
            == gpu.containerMemoryUsage.entries[pids[k]]
    decreases |pids|
  {
    var l0 := ContainerLabelOf(gpu, containerInfo[pids[0]]);
    var v := gpu.containerMemoryUsage.entries[pids[0]];
    var g' := g.(containerGpuMemoryUsage := g.containerGpuMemoryUsage[l0 := v]);
    assert WithPids(g, gpu, pids, containerInfo) == WithPids(g', gpu, pids[1..], containerInfo);
    if k == 0 {
      forall j | 0 <= j < MatchedPrefix(pids[1..], containerInfo)
        ensures ContainerLabelOf(gpu, containerInfo[pids[1..][j]]) != l0
      {
        assert pids[1..][j] == pids[j + 1];
      }
      WithPidsKeeps(g', gpu, pids[1..], containerInfo, l0);
    } else {
      forall j | k - 1 < j < MatchedPrefix(pids[1..], containerInfo)
        ensures containerInfo[pids[1..][j]] != containerInfo[pids[1..][k - 1]]
      {
        assert pids[1..][j] == pids[j + 1];
      }
      WithPidsSets(g', gpu, pids[1..], containerInfo, k - 1);
    }
  }

  // ---------------------------------------------------------------------------
  // Properties of the pass over all devices

  function Pids(gpu: GpuRecord): seq<int> {
    gpu.containerMemoryUsage.keys
  }

  function Memory(gpu: GpuRecord): map<int, real> {
    gpu.containerMemoryUsage.entries
  }

  /** The pass completes exactly when no device lists a PID outside the container map. */
  lemma {:induction false} WithGpusOutcome(g: GaugeValues, gpus: seq<GpuRecord>, containerInfo: map<int, string>)
    requires WellFormed(gpus)
    ensures WithGpus(g, gpus, containerInfo).1 <==> FailingDevice(gpus, containerInfo) == |gpus|
    decreases |gpus|
  {
    if gpus != [] {
      var first := WithGpu(g, gpus[0], containerInfo);
      WithPidsOutcome(WithDevice(g, gpus[0]), gpus[0], Pids(gpus[0]), containerInfo);
      if first.1 {
        WithGpusOutcome(first.0, gpus[1..], containerInfo);
      }
    }
  }

  /** When the first device completes, the rest of the pass is the pass over the rest. */
  lemma WithGpusFirst(g: GaugeValues, gpus: seq<GpuRecord>, containerInfo: map<int, string>)
    requires WellFormed(gpus) && gpus != []
    ensures WithGpu(g, gpus[0], containerInfo).1 <==> AllMatched(gpus[0], containerInfo)
    ensures AllMatched(gpus[0], containerInfo) ==>
              Reached(gpus, containerInfo) == 1 + Reached(gpus[1..], containerInfo)
    ensures !AllMatched(gpus[0], containerInfo) ==> Reached(gpus, containerInfo) == 1
  {
    WithPidsOutcome(WithDevice(g, gpus[0]), gpus[0], Pids(gpus[0]), containerInfo);
  }

  /** When the pass gets past the first device, what follows is the pass over the other devices. */
  lemma WithGpusRest(g: GaugeValues, gpus: seq<GpuRecord>, containerInfo: map<int, string>)
    requires WellFormed(gpus) && DistinctIndexes(gpus) && 1 < Reached(gpus, containerInfo)
    ensures WellFormed(gpus[1..]) && DistinctIndexes(gpus[1..])
    ensures Reached(gpus, containerInfo) == 1 + Reached(gpus[1..], containerInfo)
    ensures WithGpus(g, gpus, containerInfo) == WithGpus(WithGpu(g, gpus[0], containerInfo).0, gpus[1..], containerInfo)
  {
    WithGpusFirst(g, gpus, containerInfo);
  }

  lemma SameDeviceAtTrans(a: GaugeValues, b: GaugeValues, c: GaugeValues, l: DeviceLabel)
    requires SameDeviceAt(a, b, l) && SameDeviceAt(b, c, l)
    ensures SameDeviceAt(a, c, l)
  {
  }

  /** The first device's iteration leaves other device labels alone. */
  lemma WithGpuKeepsOtherDevices(g: GaugeValues, gpu: GpuRecord, containerInfo: map<int, string>, l: DeviceLabel)
    requires Listed(gpu, gpu.containerMemoryUsage.keys)
    requires LabelOf(gpu) != l
    ensures SameDeviceAt(g, WithGpu(g, gpu, containerInfo).0, l)
  {
    assert SameDeviceAt(g, WithDevice(g, gpu), l);
  }

  /** A device label that no reached device carries keeps all six of its children. */
  lemma {:induction false} WithGpusKeepsDevice(g: GaugeValues, gpus: seq<GpuRecord>, containerInfo: map<int, string>, l: DeviceLabel)
    requires WellFormed(gpus)
    requires forall i :: 0 <= i < Reached(gpus, containerInfo) ==> LabelOf(gpus[i]) != l
    ensures SameDeviceAt(g, WithGpus(g, gpus, containerInfo).0, l)
    decreases |gpus|
  {
    if gpus != [] {
      var first := WithGpu(g, gpus[0], containerInfo);
      WithGpusFirst(g, gpus, containerInfo);
      WithGpuKeepsOtherDevices(g, gpus[0], containerInfo, l);
      if first.1 {
        forall i | 0 <= i < Reached(gpus[1..], containerInfo)
          ensures LabelOf(gpus[1..][i]) != l
        {
          assert gpus[1..][i] == gpus[i + 1];
        }
        WithGpusKeepsDevice(first.0, gpus[1..], containerInfo, l);
        SameDeviceAtTrans(g, first.0, WithGpus(first.0, gpus[1..], containerInfo).0, l);
      }
    }
  }

  /**
    Every reached device, the failing one included, has its six device gauges
    set from its own record, whatever the container map holds.
   */
  lemma {:induction false} WithGpusSetsDevice(g: GaugeValues, gpus: seq<GpuRecord>, containerInfo: map<int, string>, i: nat)
    requires WellFormed(gpus) && DistinctIndexes(gpus)
    requires i < Reached(gpus, containerInfo)
    ensures DeviceShows(WithGpus(g, gpus, containerInfo).0, gpus[i])
    decreases |gpus|, 1
  {
    if i == 0 {
      SetsDeviceOnFirst(g, gpus, containerInfo);
    } else {
      SetsDeviceLater(g, gpus, containerInfo, i);
    }
  }

  /** The case of `WithGpusSetsDevice` for the first device. */
  lemma SetsDeviceOnFirst(g: GaugeValues, gpus: seq<GpuRecord>, containerInfo: map<int, string>)
    requires WellFormed(gpus) && DistinctIndexes(gpus) && gpus != []
    ensures DeviceShows(WithGpus(g, gpus, containerInfo).0, gpus[0])
  {
    var first := WithGpu(g, gpus[0], containerInfo);
    WithGpusFirst(g, gpus, containerInfo);
    if first.1 {
      forall i' | 0 <= i' < Reached(gpus[1..], containerInfo)
        ensures LabelOf(gpus[1..][i']) != LabelOf(gpus[0])
      {
        assert gpus[1..][i'] == gpus[i' + 1];
      }
      WithGpusKeepsDevice(first.0, gpus[1..], containerInfo, LabelOf(gpus[0]));
    }
  }

  /** The case of `WithGpusSetsDevice` for a later device. */
  lemma {:induction false} SetsDeviceLater(g: GaugeValues, gpus: seq<GpuRecord>, containerInfo: map<int, string>, i: nat)
    requires WellFormed(gpus) && DistinctIndexes(gpus)
    requires 0 < i < Reached(gpus, containerInfo)
    ensures DeviceShows(WithGpus(g, gpus, containerInfo).0, gpus[i])
    decreases |gpus|, 0
  {
    var rest := gpus[1..];
    WithGpusRest(g, gpus, containerInfo);
    assert rest[i - 1] == gpus[i];
    WithGpusSetsDevice(WithGpu(g, gpus[0], containerInfo).0, rest, containerInfo, i - 1);
  }

  /** A container label that no PID published before the stop maps to keeps its child. */
  lemma {:induction false} WithGpusKeepsContainer(g: GaugeValues, gpus: seq<GpuRecord>, containerInfo: map<int, string>, l: ContainerLabel)
    requires WellFormed(gpus)
    requires forall i, k :: 0 <= i < Reached(gpus, containerInfo) && 0 <= k < MatchedPrefix(Pids(gpus[i]), containerInfo) ==>
               ContainerLabelOf(gpus[i], containerInfo[Pids(gpus[i])[k]]) != l
    ensures SameAt(g.containerGpuMemoryUsage, WithGpus(g, gpus, containerInfo).0.containerGpuMemoryUsage, l)
    decreases |gpus|
  {
    if gpus != [] {
      var first := WithGpu(g, gpus[0], containerInfo);
      WithGpusFirst(g, gpus, containerInfo);
      WithPidsKeeps(WithDevice(g, gpus[0]), gpus[0], Pids(gpus[0]), containerInfo, l);
      if first.1 {
        forall i, k | 0 <= i < Reached(gpus[1..], containerInfo) && 0 <= k < MatchedPrefix(Pids(gpus[1..][i]), containerInfo)
          ensures ContainerLabelOf(gpus[1..][i], containerInfo[Pids(gpus[1..][i])[k]]) != l
        {
          assert gpus[1..][i] == gpus[i + 1];
        }
        WithGpusKeepsContainer(first.0, gpus[1..], containerInfo, l);
      }
    }
  }

  /** The case of `WithGpusSetsContainer` where the PID belongs to the first device. */
  lemma SetsContainerOnFirst(g: GaugeValues, gpus: seq<GpuRecord>, containerInfo: map<int, string>, k: nat)
    requires WellFormed(gpus) && DistinctIndexes(gpus) && gpus != []
    requires k < MatchedPrefix(Pids(gpus[0]), containerInfo)
    requires forall j :: k < j < MatchedPrefix(Pids(gpus[0]), containerInfo) ==>
               containerInfo[Pids(gpus[0])[j]] != containerInfo[Pids(gpus[0])[k]]
    ensures ContainerLabelOf(gpus[0], containerInfo[Pids(gpus[0])[k]]) in WithGpus(g, gpus, containerInfo).0.containerGpuMemoryUsage
    ensures WithGpus(g, gpus, containerInfo).0.containerGpuMemoryUsage[ContainerLabelOf(gpus[0], containerInfo[Pids(gpus[0])[k]])]
            == Memory(gpus[0])[Pids(gpus[0])[k]]
  {
    var first := WithGpu(g, gpus[0], containerInfo);
    WithGpusFirst(g, gpus, containerInfo);
    var l := ContainerLabelOf(gpus[0], containerInfo[Pids(gpus[0])[k]]);
    WithPidsSets(WithDevice(g, gpus[0]), gpus[0], Pids(gpus[0]), containerInfo, k);
    if first.1 {
      forall i', k' | 0 <= i' < Reached(gpus[1..], containerInfo) && 0 <= k' < MatchedPrefix(Pids(gpus[1..][i']), containerInfo)
        ensures ContainerLabelOf(gpus[1..][i'], containerInfo[Pids(gpus[1..][i'])[k']]) != l
      {
        assert gpus[1..][i'] == gpus[i' + 1];
      }
      WithGpusKeepsContainer(first.0, gpus[1..], containerInfo, l);
    }
  }

  /**
    A PID published before the stop sets its container's child on its device to
    its memory, unless a later PID of the same device before the stop maps to
    the same container name.
   */
  lemma {:induction false} WithGpusSetsContainer(g: GaugeValues, gpus: seq<GpuRecord>, containerInfo: map<int, string>, i: nat, k: nat)
    requires WellFormed(gpus) && DistinctIndexes(gpus)
    requires i < Reached(gpus, containerInfo)
    requires k < MatchedPrefix(Pids(gpus[i]), containerInfo)
    requires forall j :: k < j < MatchedPrefix(Pids(gpus[i]), containerInfo) ==>
               containerInfo[Pids(gpus[i])[j]] != containerInfo[Pids(gpus[i])[k]]
    ensures ContainerLabelOf(gpus[i], containerInfo[Pids(gpus[i])[k]]) in WithGpus(g, gpus, containerInfo).0.containerGpuMemoryUsage
    ensures WithGpus(g, gpus, containerInfo).0.containerGpuMemoryUsage[ContainerLabelOf(gpus[i], containerInfo[Pids(gpus[i])[k]])]
            == Memory(gpus[i])[Pids(gpus[i])[k]]
    decreases |gpus|, 1
  {
    if i == 0 {
      SetsContainerOnFirst(g, gpus, containerInfo, k);
    } else {
      SetsContainerLater(g, gpus, containerInfo, i, k);
    }
  }

  /** The case of `WithGpusSetsContainer` where the PID belongs to a later device. */
  lemma {:induction false} SetsContainerLater(g: GaugeValues, gpus: seq<GpuRecord>, containerInfo: map<int, string>, i: nat, k: nat)
    requires WellFormed(gpus) && DistinctIndexes(gpus)
    requires 0 < i < Reached(gpus, containerInfo)
    requires k < MatchedPrefix(Pids(gpus[i]), containerInfo)
    requires forall j :: k < j < MatchedPrefix(Pids(gpus[i]), containerInfo) ==>
               containerInfo[Pids(gpus[i])[j]] != containerInfo[Pids(gpus[i])[k]]
    ensures ContainerLabelOf(gpus[i], containerInfo[Pids(gpus[i])[k]]) in WithGpus(g, gpus, containerInfo).0.containerGpuMemoryUsage
    ensures WithGpus(g, gpus, containerInfo).0.containerGpuMemoryUsage[ContainerLabelOf(gpus[i], containerInfo[Pids(gpus[i])[k]])]
            == Memory(gpus[i])[Pids(gpus[i])[k]]
    decreases |gpus|, 0
  {
    var rest := gpus[1..];
    WithGpusRest(g, gpus, containerInfo);
    assert rest[i - 1] == gpus[i];
    WithGpusSetsContainer(WithGpu(g, gpus[0], containerInfo).0, rest, containerInfo, i - 1, k);
  }

  /**
    The device gauges depend on the container map only through where the pass
    stops: two container maps that stop it at the same device leave the same
    six device gauges.
   */
  lemma {:induction false} DeviceGaugesDependOnlyOnReach(
    g1: GaugeValues, g2: GaugeValues, gpus: seq<GpuRecord>, info1: map<int, string>, info2: map<int, string>)
    requires WellFormed(gpus)
    requires SameDevices(g1, g2)
    requires Reached(gpus, info1) == Reached(gpus, info2)
    ensures SameDevices(WithGpus(g1, gpus, info1).0, WithGpus(g2, gpus, info2).0)
    decreases |gpus|
  {
    if gpus != [] {
      var first1 := WithGpu(g1, gpus[0], info1);
      var first2 := WithGpu(g2, gpus[0], info2);
      WithGpusFirst(g1, gpus, info1);
      WithGpusFirst(g2, gpus, info2);
      assert SameDevices(first1.0, first2.0);
      if first1.1 && first2.1 {
        DeviceGaugesDependOnlyOnReach(first1.0, first2.0, gpus[1..], info1, info2);
      } else if first1.1 {
        assert gpus[1..] == [];
      } else if first2.1 {
        assert gpus[1..] == [];
      }
    }
  }

  // ---------------------------------------------------------------------------
  // The pass only overwrites

  /** `g` with every child that `d` has replaced by `d`'s value. */
  function Overlay(g: GaugeValues, d: GaugeValues): GaugeValues {
    GaugeValues(
      g.coreUtilization + d.coreUtilization,
      g.memoryUtilization + d.memoryUtilization,
      g.powerUsage + d.powerUsage,
      g.powerLimit + d.powerLimit,
      g.memoryUsage + d.memoryUsage,
      g.memoryTotal + d.memoryTotal,
      g.containerGpuMemoryUsage + d.containerGpuMemoryUsage)
  }

  lemma UnionAssociative<L>(a: map<L, real>, b: map<L, real>, c: map<L, real>)
    ensures (a + b) + c == a + (b + c)
  {
    assert forall l :: l in (a + b) + c <==> l in a + (b + c);
  }

  lemma UnionTwice<L>(a: map<L, real>, d: map<L, real>)
    ensures (a + d) + d == a + d
  {
    assert forall l :: l in (a + d) + d <==> l in a + d;
  }

  lemma UnionNothing<L>(a: map<L, real>)
    ensures a + map[] == a && map[] + a == a
  {
    assert forall l :: l in a + map[] <==> l in a;
    assert forall l :: l in map[] + a <==> l in a;
  }

  lemma UpdateIsUnion<L>(a: map<L, real>, l: L, v: real)
    ensures a[l := v] == a + map[l := v]
  {
    assert forall l' :: l' in a[l := v] <==> l' in a + map[l := v];
  }

  lemma OverlayAssociative(a: GaugeValues, b: GaugeValues, c: GaugeValues)
    ensures Overlay(Overlay(a, b), c) == Overlay(a, Overlay(b, c))
  {
    UnionAssociative(a.coreUtilization, b.coreUtilization, c.coreUtilization);
    UnionAssociative(a.memoryUtilization, b.memoryUtilization, c.memoryUtilization);
    UnionAssociative(a.powerUsage, b.powerUsage, c.powerUsage);
    UnionAssociative(a.powerLimit, b.powerLimit, c.powerLimit);
    UnionAssociative(a.memoryUsage, b.memoryUsage, c.memoryUsage);
    UnionAssociative(a.memoryTotal, b.memoryTotal, c.memoryTotal);
    UnionAssociative(a.containerGpuMemoryUsage, b.containerGpuMemoryUsage, c.containerGpuMemoryUsage);
  }

  lemma OverlayNothing(g: GaugeValues)
    ensures Overlay(g, NoGauges()) == g && Overlay(NoGauges(), g) == g
  {
    UnionNothing(g.coreUtilization);
    UnionNothing(g.memoryUtilization);
    UnionNothing(g.powerUsage);
    UnionNothing(g.powerLimit);
    UnionNothing(g.memoryUsage);
    UnionNothing(g.memoryTotal);
    UnionNothing(g.containerGpuMemoryUsage);
  }

  lemma OverlayTwice(g: GaugeValues, d: GaugeValues)
    ensures Overlay(Overlay(g, d), d) == Overlay(g, d)
  {
    UnionTwice(g.coreUtilization, d.coreUtilization);
    UnionTwice(g.memoryUtilization, d.memoryUtilization);
    UnionTwice(g.powerUsage, d.powerUsage);
    UnionTwice(g.powerLimit, d.powerLimit);
    UnionTwice(g.memoryUsage, d.memoryUsage);
    UnionTwice(g.memoryTotal, d.memoryTotal);
    UnionTwice(g.containerGpuMemoryUsage, d.containerGpuMemoryUsage);
  }

  /** The six device `.set()` calls overlay the previous gauges with the device's own readings. */
  lemma WithDeviceOverlays(g: GaugeValues, gpu: GpuRecord)
    ensures WithDevice(g, gpu) == Overlay(g, WithDevice(NoGauges(), gpu))
  {
    var l := LabelOf(gpu);
    UpdateIsUnion(g.coreUtilization, l, gpu.coreUtilization as real);
    UpdateIsUnion(g.memoryUtilization, l, gpu.memoryUtilization as real);
    UpdateIsUnion(g.powerUsage, l, gpu.powerUsage);
    UpdateIsUnion(g.powerLimit, l, gpu.powerLimit);
    UpdateIsUnion(g.memoryUsage, l, gpu.memoryUsage);
    UpdateIsUnion(g.memoryTotal, l, gpu.memoryTotal);
    UnionNothing(g.containerGpuMemoryUsage);
  }

  /** One container `.set()` call is an overlay with a single child. */
  lemma ContainerSetOverlays(g: GaugeValues, l: ContainerLabel, v: real)
    ensures g.(containerGpuMemoryUsage := g.containerGpuMemoryUsage[l := v]) ==
            Overlay(g, NoGauges().(containerGpuMemoryUsage := map[l := v]))
  {
    UnionNothing(g.coreUtilization);
    UnionNothing(g.memoryUtilization);
    UnionNothing(g.powerUsage);
    UnionNothing(g.powerLimit);
    UnionNothing(g.memoryUsage);
    UnionNothing(g.memoryTotal);
    UpdateIsUnion(g.containerGpuMemoryUsage, l, v);
  }

  /** The inner loop overlays the previous gauges with writes that do not depend on them. */
  lemma {:induction false} WithPidsOverlays(g: GaugeValues, gpu: GpuRecord, pids: seq<int>, containerInfo: map<int, string>)
    requires Listed(gpu, pids)
    ensures WithPids(g, gpu, pids, containerInfo).0 == Overlay(g, WithPids(NoGauges(), gpu, pids, containerInfo).0)
    decreases |pids|
  {
    if pids == [] || pids[0] !in containerInfo {
      OverlayNothing(g);
    } else {
      var l := ContainerLabelOf(gpu, containerInfo[pids[0]]);
      var v := gpu.containerMemoryUsage.entries[pids[0]];
      var one := NoGauges().(containerGpuMemoryUsage := map[l := v]);
      var rest := WithPids(NoGauges(), gpu, pids[1..], containerInfo).0;
      ContainerSetOverlays(g, l, v);
      ContainerSetOverlays(NoGauges(), l, v);
      OverlayNothing(one);
      WithPidsOverlays(Overlay(g, one), gpu, pids[1..], containerInfo);
      WithPidsOverlays(one, gpu, pids[1..], containerInfo);
      OverlayAssociative(g, one, rest);
    }
  }

  /** One device's iteration overlays the previous gauges with writes that do not depend on them. */
  lemma WithGpuOverlays(g: GaugeValues, gpu: GpuRecord, containerInfo: map<int, string>)
    requires Listed(gpu, gpu.containerMemoryUsage.keys)
    ensures WithGpu(g, gpu, containerInfo).0 == Overlay(g, WithGpu(NoGauges(), gpu, containerInfo).0)
  {
    var device := WithDevice(NoGauges(), gpu);
    var pids := WithPids(NoGauges(), gpu, Pids(gpu), containerInfo).0;
    WithDeviceOverlays(g, gpu);
    WithDeviceOverlays(NoGauges(), gpu);
    OverlayNothing(device);
    WithPidsOverlays(WithDevice(g, gpu), gpu, Pids(gpu), containerInfo);
    WithPidsOverlays(device, gpu, Pids(gpu), containerInfo);
    OverlayAssociative(g, device, pids);
  }

  /**
    The pass as written overlays the previous gauges with this cycle's writes,
    and neither those writes nor where the pass stops depend on the previous
    gauges: every `.set()` overwrites, nothing accumulates.
   */
  lemma {:induction false} WithGpusOverlays(g: GaugeValues, gpus: seq<GpuRecord>, containerInfo: map<int, string>)
    requires WellFormed(gpus)
    ensures WithGpus(g, gpus, containerInfo).0 == Overlay(g, WithGpus(NoGauges(), gpus, containerInfo).0)
    ensures WithGpus(g, gpus, containerInfo).1 == WithGpus(NoGauges(), gpus, containerInfo).1
    decreases |gpus|
  {
    if gpus == [] {
      OverlayNothing(g);
    } else {
      var first := WithGpu(g, gpus[0], containerInfo);
      var firstE := WithGpu(NoGauges(), gpus[0], containerInfo);
      WithGpusFirst(g, gpus, containerInfo);
      WithGpusFirst(NoGauges(), gpus, containerInfo);
      WithGpuOverlays(g, gpus[0], containerInfo);
      if first.1 {
        var rest := WithGpus(NoGauges(), gpus[1..], containerInfo).0;
        WithGpusOverlays(first.0, gpus[1..], containerInfo);
        WithGpusOverlays(firstE.0, gpus[1..], containerInfo);
        OverlayAssociative(g, firstE.0, rest);
      }
    }
  }

  /** Running the pass twice with the same readings leaves what running it once left. */
  lemma WithGpusIdempotent(g: GaugeValues, gpus: seq<GpuRecord>, containerInfo: map<int, string>)
    requires WellFormed(gpus)
    ensures WithGpus(WithGpus(g, gpus, containerInfo).0, gpus, containerInfo) == WithGpus(g, gpus, containerInfo)
  {
    var d := WithGpus(NoGauges(), gpus, containerInfo).0;
    WithGpusOverlays(g, gpus, containerInfo);
    WithGpusOverlays(WithGpus(g, gpus, containerInfo).0, gpus, containerInfo);
    OverlayTwice(g, d);
  }

  // ---------------------------------------------------------------------------
  // The evidently intended pass: an unmatched PID is dropped, the pass goes on

  /** The inner loop with the unmatched branch doing nothing instead of raising. */
  function WithPidsSkipping(g: GaugeValues, gpu: GpuRecord, pids: seq<int>, containerInfo: map<int, string>)
    : (h: GaugeValues)
    requires Listed(gpu, pids)
    ensures SameDevices(g, h)
    decreases |pids|
  {
    if pids == [] then g
    else if pids[0] !in containerInfo then WithPidsSkipping(g, gpu, pids[1..], containerInfo)
    else
      var l := ContainerLabelOf(gpu, containerInfo[pids[0]]);
      var v := gpu.containerMemoryUsage.entries[pids[0]];
      WithPidsSkipping(g.(containerGpuMemoryUsage := g.containerGpuMemoryUsage[l := v]), gpu, pids[1..], containerInfo)
  }

  function WithGpusSkipping(g: GaugeValues, gpus: seq<GpuRecord>, containerInfo: map<int, string>): GaugeValues
    requires WellFormed(gpus)
    decreases |gpus|
  {
    if gpus == [] then g
    else
      var h := WithPidsSkipping(WithDevice(g, gpus[0]), gpus[0], Pids(gpus[0]), containerInfo);
      WithGpusSkipping(h, gpus[1..], containerInfo)
  }

  /** Without unmatched PIDs the intended pass and the pass as written agree. */
  lemma {:induction false} SkippingAgreesWhenMatched(g: GaugeValues, gpus: seq<GpuRecord>, containerInfo: map<int, string>)
    requires WellFormed(gpus)
    requires FailingDevice(gpus, containerInfo) == |gpus|
    ensures WithGpusSkipping(g, gpus, containerInfo) == WithGpus(g, gpus, containerInfo).0
    decreases |gpus|
  {
    if gpus != [] {
      var h := WithDevice(g, gpus[0]);
      PidsSkippingAgrees(h, gpus[0], Pids(gpus[0]), containerInfo);
      WithGpusFirst(g, gpus, containerInfo);
      SkippingAgreesWhenMatched(WithGpu(g, gpus[0], containerInfo).0, gpus[1..], containerInfo);
    }
  }

  lemma {:induction false} PidsSkippingAgrees(g: GaugeValues, gpu: GpuRecord, pids: seq<int>, containerInfo: map<int, string>)
    requires Listed(gpu, pids)
    requires forall j :: 0 <= j < |pids| ==> pids[j] in containerInfo
    ensures WithPidsSkipping(g, gpu, pids, containerInfo) == WithPids(g, gpu, pids, containerInfo).0
    decreases |pids|
  {
    if pids != [] {
      var l := ContainerLabelOf(gpu, containerInfo[pids[0]]);
      var v := gpu.containerMemoryUsage.entries[pids[0]];
      PidsSkippingAgrees(g.(containerGpuMemoryUsage := g.containerGpuMemoryUsage[l := v]), gpu, pids[1..], containerInfo);
    }
  }

  /** The intended pass sets the six device gauges of every device. */
  lemma {:induction false} SkippingSetsEveryDevice(g: GaugeValues, gpus: seq<GpuRecord>, containerInfo: map<int, string>, i: nat)
    requires WellFormed(gpus) && DistinctIndexes(gpus)
    requires i < |gpus|
    ensures DeviceShows(WithGpusSkipping(g, gpus, containerInfo), gpus[i])
    decreases |gpus|
  {
    var h := WithPidsSkipping(WithDevice(g, gpus[0]), gpus[0], Pids(gpus[0]), containerInfo);
    if i == 0 {
      SkippingKeepsDevice(h, gpus[1..], containerInfo, LabelOf(gpus[0]));
    } else {
      assert gpus[1..][i - 1] == gpus[i];
      SkippingSetsEveryDevice(h, gpus[1..], containerInfo, i - 1);
    }
  }

  lemma {:induction false} SkippingKeepsDevice(g: GaugeValues, gpus: seq<GpuRecord>, containerInfo: map<int, string>, l: DeviceLabel)
    requires WellFormed(gpus)
    requires forall i :: 0 <= i < |gpus| ==> LabelOf(gpus[i]) != l
    ensures SameDeviceAt(g, WithGpusSkipping(g, gpus, containerInfo), l)
    decreases |gpus|
  {
    if gpus != [] {
      var d := WithDevice(g, gpus[0]);
      var h := WithPidsSkipping(d, gpus[0], Pids(gpus[0]), containerInfo);
      assert SameDeviceAt(g, d, l);
      SkippingKeepsDevice(h, gpus[1..], containerInfo, l);
      SameDeviceAtTrans(g, h, WithGpusSkipping(h, gpus[1..], containerInfo), l);
    }
  }

  lemma {:induction false} PidsSkippingKeeps(g: GaugeValues, gpu: GpuRecord, pids: seq<int>, containerInfo: map<int, string>, l: ContainerLabel)
    requires Listed(gpu, pids)
    requires forall j :: 0 <= j < |pids| && pids[j] in containerInfo ==> ContainerLabelOf(gpu, containerInfo[pids[j]]) != l
    ensures SameAt(g.containerGpuMemoryUsage, WithPidsSkipping(g, gpu, pids, containerInfo).containerGpuMemoryUsage, l)
    decreases |pids|
  {
    if pids != [] {
      var g' := g;
      if pids[0] in containerInfo {
        var l0 := ContainerLabelOf(gpu, containerInfo[pids[0]]);
        g' := g.(containerGpuMemoryUsage := g.containerGpuMemoryUsage[l0 := gpu.containerMemoryUsage.entries[pids[0]]]);
      }
      assert WithPidsSkipping(g, gpu, pids, containerInfo) == WithPidsSkipping(g', gpu, pids[1..], containerInfo);
      PidsSkippingKeeps(g', gpu, pids[1..], containerInfo, l);
    }
  }

  /**
    In the intended pass every PID with a container sets its container's child
    on its device, whatever unmatched PIDs come before it, unless a later
    matched PID of the same device maps to the same container name.
   */
  lemma {:induction false} PidsSkippingSets(g: GaugeValues, gpu: GpuRecord, pids: seq<int>, containerInfo: map<int, string>, k: nat)
    requires Listed(gpu, pids)
    requires k < |pids| && pids[k] in containerInfo
    requires forall j :: k < j < |pids| && pids[j] in containerInfo ==> containerInfo[pids[j]] != containerInfo[pids[k]]
    ensures ContainerLabelOf(gpu, containerInfo[pids[k]]) in WithPidsSkipping(g, gpu, pids, containerInfo).containerGpuMemoryUsage
    ensures WithPidsSkipping(g, gpu, pids, containerInfo).containerGpuMemoryUsage[ContainerLabelOf(gpu, containerInfo[pids[k]])]
            == gpu.containerMemoryUsage.entries[pids[k]]
    decreases |pids|
  {
    var g' := g;
    if pids[0] in containerInfo {
      var l0 := ContainerLabelOf(gpu, containerInfo[pids[0]]);
      g' := g.(containerGpuMemoryUsage := g.containerGpuMemoryUsage[l0 := gpu.containerMemoryUsage.entries[pids[0]]]);
    }
    assert WithPidsSkipping(g, gpu, pids, containerInfo) == WithPidsSkipping(g', gpu, pids[1..], containerInfo);
    if k == 0 {
      PidsSkippingKeeps(g', gpu, pids[1..], containerInfo, ContainerLabelOf(gpu, containerInfo[pids[0]]));
    } else {
      PidsSkippingSets(g', gpu, pids[1..], containerInfo, k - 1);
    }
  }

  lemma {:induction false} SkippingKeepsContainer(g: GaugeValues, gpus: seq<GpuRecord>, containerInfo: map<int, string>, l: ContainerLabel)
    requires WellFormed(gpus)
    requires forall i :: 0 <= i < |gpus| ==> gpus[i].index != l.index
    ensures SameAt(g.containerGpuMemoryUsage, WithGpusSkipping(g, gpus, containerInfo).containerGpuMemoryUsage, l)
    decreases |gpus|
  {
    if gpus != [] {
      var d := WithDevice(g, gpus[0]);
      PidsSkippingKeeps(d, gpus[0], Pids(gpus[0]), containerInfo, l);
      var h := WithPidsSkipping(d, gpus[0], Pids(gpus[0]), containerInfo);
      SkippingKeepsContainer(h, gpus[1..], containerInfo, l);
    }
  }

  /** The intended pass publishes every matched PID of every device. */
  lemma {:induction false} SkippingSetsContainer(g: GaugeValues, gpus: seq<GpuRecord>, containerInfo: map<int, string>, i: nat, k: nat)
    requires WellFormed(gpus) && DistinctIndexes(gpus)
    requires i < |gpus| && k < |Pids(gpus[i])| && Pids(gpus[i])[k] in containerInfo
    requires forall j :: k < j < |Pids(gpus[i])| && Pids(gpus[i])[j] in containerInfo ==>
               containerInfo[Pids(gpus[i])[j]] != containerInfo[Pids(gpus[i])[k]]
    ensures ContainerLabelOf(gpus[i], containerInfo[Pids(gpus[i])[k]]) in WithGpusSkipping(g, gpus, containerInfo).containerGpuMemoryUsage
    ensures WithGpusSkipping(g, gpus, containerInfo).containerGpuMemoryUsage[ContainerLabelOf(gpus[i], containerInfo[Pids(gpus[i])[k]])]
            == Memory(gpus[i])[Pids(gpus[i])[k]]
    decreases |gpus|
  {
    var d := WithDevice(g, gpus[0]);
    var h := WithPidsSkipping(d, gpus[0], Pids(gpus[0]), containerInfo);
    if i == 0 {
      PidsSkippingSets(d, gpus[0], Pids(gpus[0]), containerInfo, k);
      forall i' | 0 <= i' < |gpus[1..]|
        ensures gpus[1..][i'].index != gpus[0].index
      {
        assert gpus[1..][i'] == gpus[i' + 1];
      }
      SkippingKeepsContainer(h, gpus[1..], containerInfo, ContainerLabelOf(gpus[0], containerInfo[Pids(gpus[0])[k]]));
    } else {
      assert gpus[1..][i - 1] == gpus[i];
      SkippingSetsContainer(h, gpus[1..], containerInfo, i - 1, k);
    }
  }

  // ---------------------------------------------------------------------------
  // The device list as `get_gpu_info` builds it

  /** `get_gpu_info`'s records meet what the pass requires of them, with one label per device. */
  lemma GpuInfoFitsPass(devices: seq<NvmlDevice>)
    ensures WellFormed(GpuInfo(devices))
    ensures DistinctIndexes(GpuInfo(devices))
  {
    forall i | 0 <= i < |devices|
      ensures Listed(GpuInfo(devices)[i], GpuInfo(devices)[i].containerMemoryUsage.keys)
    {
      var d := GpuInfo(devices)[i].containerMemoryUsage;
      FromPairsValid(ProcessPairs(devices[i].computeProcesses));
      forall j | 0 <= j < |d.keys| ensures d.keys[j] in d.entries {
        assert d.keys[j] in set k | k in d.keys;
      }
    }
  }

  /** A device record has no unmatched PID exactly when each of its compute processes' PIDs is a key. */
  lemma AllMatchedIff(index: nat, device: NvmlDevice, containerInfo: map<int, string>)
    ensures AllMatched(GpuRecordOf(index, device), containerInfo) <==>
            forall j :: 0 <= j < |device.computeProcesses| ==> device.computeProcesses[j].pid in containerInfo
  {
    var processes := device.computeProcesses;
    var d := ContainerMemoryUsage(processes);
    FromPairsValid(ProcessPairs(processes));
    if AllMatched(GpuRecordOf(index, device), containerInfo) {
      forall j | 0 <= j < |processes| ensures processes[j].pid in containerInfo {
        ContainerMemoryUsageKeys(processes, processes[j].pid);
        assert processes[j].pid in set k | k in d.keys;
        var k :| 0 <= k < |d.keys| && d.keys[k] == processes[j].pid;
      }
    }
    if forall j :: 0 <= j < |processes| ==> processes[j].pid in containerInfo {
      forall k | 0 <= k < |d.keys| ensures d.keys[k] in containerInfo {
        assert d.keys[k] in set k' | k' in d.keys;
        ContainerMemoryUsageKeys(processes, d.keys[k]);
      }
    }
  }

  // ---------------------------------------------------------------------------
  // The gauges object

  /** The seven gauges of `detecting_loop`, each a map from label tuple to value. */
  class GaugeStore {
    var coreUtilization: map<DeviceLabel, real>
    var memoryUtilization: map<DeviceLabel, real>
    var powerUsage: map<DeviceLabel, real>
    var powerLimit: map<DeviceLabel, real>
    var memoryUsage: map<DeviceLabel, real>
    var memoryTotal: map<DeviceLabel, real>
    var containerGpuMemoryUsage: map<ContainerLabel, real>

    function Values(): GaugeValues
      reads this
    {
      GaugeValues(coreUtilization, memoryUtilization, powerUsage, powerLimit,
                  memoryUsage, memoryTotal, containerGpuMemoryUsage)
    }

    /** The seven `Gauge(...)` constructions: no child exists yet. */
    constructor ()
      ensures Values() == NoGauges()
    {
      coreUtilization, memoryUtilization, powerUsage := map[], map[], map[];
      powerLimit, memoryUsage, memoryTotal := map[], map[], map[];
      containerGpuMemoryUsage := map[];
    }

    /** The six `.labels(index, uuid, name).set(...)` calls for one device. */
    method SetDeviceGauges(gpu: GpuRecord)
      modifies this
      ensures Values() == WithDevice(old(Values()), gpu)
    {
      var series := DeviceLabel(gpu.index, gpu.name, gpu.uuid);
      coreUtilization := coreUtilization[series := gpu.coreUtilization as real];
      memoryUtilization := memoryUtilization[series := gpu.memoryUtilization as real];
      powerUsage := powerUsage[series := gpu.powerUsage];
      powerLimit := powerLimit[series := gpu.powerLimit];
      memoryUsage := memoryUsage[series := gpu.memoryUsage];
      memoryTotal := memoryTotal[series := gpu.memoryTotal];
    }

    /**
      One iteration of `for gpu in gpu_info`: the device gauges, then each PID of
      `container_memory_usage` in insertion order. `ok` is false when the
      unmatched branch raised, with everything set before it kept.
     */
    method PublishGpu(gpu: GpuRecord, containerInfo: Dict<int, string>) returns (ok: bool)
      requires Listed(gpu, gpu.containerMemoryUsage.keys)
      modifies this
      ensures (Values(), ok) == WithGpu(old(Values()), gpu, containerInfo.entries)
    {
      SetDeviceGauges(gpu);
      ghost var afterDevice := Values();
      var pids := gpu.containerMemoryUsage.keys;
      for i := 0 to |pids|
        invariant WithPids(Values(), gpu, pids[i..], containerInfo.entries)
                  == WithPids(afterDevice, gpu, pids, containerInfo.entries)
      {
        var pid := pids[i];
        if pid in containerInfo.entries {
          var series := ContainerLabel(gpu.index, gpu.name, gpu.uuid, containerInfo.entries[pid]);
          containerGpuMemoryUsage := containerGpuMemoryUsage[series := gpu.containerMemoryUsage.entries[pid]];
        } else {
          // `gpu['container_info']`: the record has no such key, so KeyError
          return false;
        }
      }
      ok := true;
    }

    /** The loop `for gpu in gpu_info`, left at the first raise. */
    method PublishAll(gpus: seq<GpuRecord>, containerInfo: Dict<int, string>) returns (ok: bool)
      requires WellFormed(gpus)
      modifies this
      ensures (Values(), ok) == WithGpus(old(Values()), gpus, containerInfo.entries)
    {
      for i := 0 to |gpus|
        invariant WithGpus(Values(), gpus[i..], containerInfo.entries)
                  == WithGpus(old(Values()), gpus, containerInfo.entries)
      {
        ok := PublishGpu(gpus[i], containerInfo);
        if !ok {
          return;
        }
      }
      ok := true;
    }
  }
}
