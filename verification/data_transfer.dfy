/** The copy engine proper: the capability query `CanCopy` and the dispatch
    of `CopyTensor` onto one of the runtime's copy primitives. */
module DataTransfer {
  import opened CudaStatus
  import opened Devices
  import opened Streams

  /** A raw data pointer, as an address in one address space shared by host
      and device. */
  type Addr = nat

  /** The part of a tensor the engine reads: `SizeInBytes()`, the data
      pointer and `Location().device`. */
  datatype Tensor = Tensor(sizeInBytes: nat, data: Addr, device: OrtDevice)

  /** The `cudaMemcpyKind` of a runtime copy. */
  datatype CopyKind = HostToDevice | DeviceToDevice | DeviceToHost

  /** A copy primitive as issued: `cudaMemcpyAsync` on a stream, blocking
      `cudaMemcpy`, or the C library's `memcpy`. */
  datatype CopyCall =
    | MemcpyAsync(dst: Addr, src: Addr, count: nat, kind: CopyKind, stream: Stream)
    | Memcpy(dst: Addr, src: Addr, count: nat, kind: CopyKind)
    | HostMemcpy(dst: Addr, src: Addr, count: nat)

  /** `GPUDataTransfer::CanCopy`: the engine claims every pair in which one
      side is GPU memory or carries the CUDA_PINNED memory type. */
  function CanCopy(src: OrtDevice, dst: OrtDevice): (r: bool)
    ensures r <==> Classify(src) == GpuMemory || Classify(dst) == GpuMemory
                   || HasPinnedMemType(src) || HasPinnedMemType(dst)
    ensures !r ==> Classify(src) == OtherHost && Classify(dst) == OtherHost
  {
    src.kind == GPU || src.memType == CudaPinned || dst.kind == GPU || dst.memType == CudaPinned
  }

  /** The strategy `CopyTensor` picks, with the stream slot it uses. */
  datatype Action =
    | AsyncCopy(kind: CopyKind, slot: int)
    | SyncCopy(kind: CopyKind)
    | HostCopy
    | Elide

  /** True when the dispatch reads `streams_[exec_queue_id]`: the two
      asynchronous host-boundary paths. */
  predicate UsesQueueSelector(src: OrtDevice, dst: OrtDevice)
  {
    (IsGpu(dst) && IsPinnedHost(src)) || (!IsGpu(dst) && IsGpu(src) && IsPinnedHost(dst))
  }

  /** The decision tree of `CopyTensor`, as a total function of the two
      devices, whether the data pointers are equal, and the queue selector. */
  function Decide(src: OrtDevice, dst: OrtDevice, samePointer: bool, queueId: int): (a: Action)
    ensures a == HostCopy <==> !IsGpu(src) && !IsGpu(dst)
    ensures a == Elide <==> IsGpu(src) && IsGpu(dst) && samePointer
    ensures a.AsyncCopy? <==> UsesQueueSelector(src, dst) || (IsGpu(src) && IsGpu(dst) && !samePointer)
    ensures a.AsyncCopy? || a.SyncCopy? ==>
      && (a.kind == HostToDevice <==> !IsGpu(src) && IsGpu(dst))
      && (a.kind == DeviceToHost <==> IsGpu(src) && !IsGpu(dst))
      && (a.kind == DeviceToDevice <==> IsGpu(src) && IsGpu(dst))
    ensures a.AsyncCopy? ==> a.slot == (if a.kind == DeviceToDevice then DefaultSlot else queueId)
  {
    if dst.kind == GPU then
      if src.kind == CPU && src.memType == CudaPinned then AsyncCopy(HostToDevice, queueId)
      else if src.kind == GPU then
        if !samePointer then AsyncCopy(DeviceToDevice, DefaultSlot) else Elide
      else SyncCopy(HostToDevice)
    else if src.kind == GPU then
      if dst.kind == CPU && dst.memType == CudaPinned then AsyncCopy(DeviceToHost, queueId)
      else SyncCopy(DeviceToHost)
    else HostCopy
  }

  /** What one `CopyTensor` call did: its status and the primitives issued. */
  datatype Transfer = Transfer(status: Status, issued: seq<CopyCall>)

  /** `GPUDataTransfer::CopyTensor(src, dst, exec_queue_id)`. `rc` is the
      runtime's answer to the CUDA copy, if one is issued. The C++ code indexes
      `streams_` with the queue selector unchecked, so the caller must keep it
      in range on the paths that read it. */
  function CopyTensor(streams: StreamTable, src: Tensor, dst: Tensor, execQueueId: int, rc: ErrorCode): (r: Transfer)
    requires Valid(streams)
    requires UsesQueueSelector(src.device, dst.device) ==> 0 <= execQueueId < NumStreams
    // at most one primitive, always from src to dst over src's byte count
    ensures |r.issued| <= 1
    ensures forall c :: c in r.issued ==>
      c.dst == dst.data && c.src == src.data && c.count == src.sizeInBytes
    // errors: only a CUDA primitive can fail, and its code is passed on
    ensures r.status == Ok || r.status == Fail(rc)
    ensures r.status.Fail? <==> rc != CudaSuccess && |r.issued| == 1 && !r.issued[0].HostMemcpy?
    // pinned host to GPU: asynchronous on the selected stream
    ensures IsPinnedHost(src.device) && IsGpu(dst.device) ==>
      r.issued == [MemcpyAsync(dst.data, src.data, src.sizeInBytes, HostToDevice, streams.slots[execQueueId])]
    // GPU to GPU: asynchronous on the default stream, nothing when the pointers agree
    ensures IsGpu(src.device) && IsGpu(dst.device) && src.data != dst.data ==>
      r.issued == [MemcpyAsync(dst.data, src.data, src.sizeInBytes, DeviceToDevice, NullStream)]
    ensures IsGpu(src.device) && IsGpu(dst.device) && src.data == dst.data ==>
      r == Transfer(Ok, [])
    // any other source to GPU: blocking
    ensures !IsPinnedHost(src.device) && !IsGpu(src.device) && IsGpu(dst.device) ==>
      r.issued == [Memcpy(dst.data, src.data, src.sizeInBytes, HostToDevice)]
    // GPU to pinned host: asynchronous on the selected stream
    ensures IsGpu(src.device) && IsPinnedHost(dst.device) ==>
      r.issued == [MemcpyAsync(dst.data, src.data, src.sizeInBytes, DeviceToHost, streams.slots[execQueueId])]
    // GPU to any other non-GPU destination: blocking
    ensures IsGpu(src.device) && !IsGpu(dst.device) && !IsPinnedHost(dst.device) ==>
      r.issued == [Memcpy(dst.data, src.data, src.sizeInBytes, DeviceToHost)]
    // neither side GPU: memcpy, which cannot fail
    ensures !IsGpu(src.device) && !IsGpu(dst.device) ==>
      r == Transfer(Ok, [HostMemcpy(dst.data, src.data, src.sizeInBytes)])
  {
    var bytes := src.sizeInBytes;
    match Decide(src.device, dst.device, src.data == dst.data, execQueueId)
    case AsyncCopy(kind, slot) =>
      Transfer(FromRuntime(rc), [MemcpyAsync(dst.data, src.data, bytes, kind, streams.slots[slot])])
    case SyncCopy(kind) =>
      Transfer(FromRuntime(rc), [Memcpy(dst.data, src.data, bytes, kind)])
    case HostCopy =>
      Transfer(Ok, [HostMemcpy(dst.data, src.data, bytes)])
    case Elide =>
      Transfer(Ok, [])
  }

  // ---------------------------------------------------------------------
  // The dispatch as a first-match table over classified endpoints.

  /** The six strategies, one per row of the dispatch table. */
  datatype Strategy = AsyncHtoD | AsyncDtoD | SyncHtoD | AsyncDtoH | SyncDtoH | PlainMemcpy

  /** A row: the source and destination classes it accepts, and its strategy. */
  datatype Rule = Rule(srcClasses: set<Endpoint>, dstClasses: set<Endpoint>, strategy: Strategy)

  /** The dispatch table in priority order. */
  const DispatchTable: seq<Rule> := [
    Rule({PinnedHost}, {GpuMemory}, AsyncHtoD),
    Rule({GpuMemory}, {GpuMemory}, AsyncDtoD),
    Rule({OtherHost}, {GpuMemory}, SyncHtoD),
    Rule({GpuMemory}, {PinnedHost}, AsyncDtoH),
    Rule({GpuMemory}, {OtherHost}, SyncDtoH),
    Rule({PinnedHost, OtherHost}, {PinnedHost, OtherHost}, PlainMemcpy)
  ]

  predicate Matches(rule: Rule, s: Endpoint, d: Endpoint)
  {
    s in rule.srcClasses && d in rule.dstClasses
  }

  datatype Option<T> = None | Some(value: T)

  /** The strategy of the first row that matches, if any. */
  function FirstMatch(rules: seq<Rule>, s: Endpoint, d: Endpoint): (r: Option<Strategy>)
    ensures r.Some? <==> exists i :: 0 <= i < |rules| && Matches(rules[i], s, d)
    ensures r.Some? ==> exists i :: 0 <= i < |rules| && Matches(rules[i], s, d)
                                  && rules[i].strategy == r.value
                                  && forall j :: 0 <= j < i ==> !Matches(rules[j], s, d)
  {
    if |rules| == 0 then None
    else if Matches(rules[0], s, d) then Some(rules[0].strategy)
    else
      var rest := FirstMatch(rules[1..], s, d);
      assert forall i :: 1 <= i < |rules| ==> rules[i] == rules[1..][i - 1];
      if rest.Some? then
        ghost var i :| 0 <= i < |rules[1..]| && Matches(rules[1..][i], s, d)
                       && rules[1..][i].strategy == rest.value
                       && forall j :: 0 <= j < i ==> !Matches(rules[1..][j], s, d);
        assert Matches(rules[i + 1], s, d) && forall j :: 0 <= j < i + 1 ==> !Matches(rules[j], s, d);
        rest
      else rest
  }

  /** The action a strategy amounts to; a device-to-device copy between equal
      pointers is elided. */
  function ActionOf(strategy: Strategy, samePointer: bool, queueId: int): Action
  {
    match strategy
    case AsyncHtoD => AsyncCopy(HostToDevice, queueId)
    case AsyncDtoD => if samePointer then Elide else AsyncCopy(DeviceToDevice, DefaultSlot)
    case SyncHtoD => SyncCopy(HostToDevice)
    case AsyncDtoH => AsyncCopy(DeviceToHost, queueId)
    case SyncDtoH => SyncCopy(DeviceToHost)
    case PlainMemcpy => HostCopy
  }

  /** The row that serves a pair of endpoint classes. */
  function RowFor(s: Endpoint, d: Endpoint): (i: nat)
    ensures i < |DispatchTable| && Matches(DispatchTable[i], s, d)
  {
    match (s, d)
    case (PinnedHost, GpuMemory) => 0
    case (GpuMemory, GpuMemory) => 1
    case (OtherHost, GpuMemory) => 2
    case (GpuMemory, PinnedHost) => 3
    case (GpuMemory, OtherHost) => 4
    case _ => 5
  }

  /** The rows cover every pair of endpoint classes and never overlap, so the
      priority order of the table does not change what it selects. */
  lemma DispatchTablePartitions(s: Endpoint, d: Endpoint)
    ensures forall i :: 0 <= i < |DispatchTable| ==>
              (Matches(DispatchTable[i], s, d) <==> i == RowFor(s, d))
  {
  }

  /** When exactly one row matches, the first match is that row. */
  lemma FirstMatchOfUniqueRow(rules: seq<Rule>, s: Endpoint, d: Endpoint, k: nat)
    requires k < |rules|
    requires forall i :: 0 <= i < |rules| ==> (Matches(rules[i], s, d) <==> i == k)
    ensures FirstMatch(rules, s, d) == Some(rules[k].strategy)
  {
  }

  /** The strategy of the one row that serves a pair of endpoint classes. */
  function TableStrategy(s: Endpoint, d: Endpoint): Strategy
  {
    DispatchTable[RowFor(s, d)].strategy
  }

  /** Reading the table in priority order selects that row's strategy. */
  lemma FirstMatchIsTableStrategy(s: Endpoint, d: Endpoint)
    ensures FirstMatch(DispatchTable, s, d) == Some(TableStrategy(s, d))
  {
    DispatchTablePartitions(s, d);
    FirstMatchOfUniqueRow(DispatchTable, s, d, RowFor(s, d));
  }

  /** The nested conditionals of `CopyTensor` select exactly what the table
      selects for the classified endpoints. */
  lemma DecideFollowsDispatchTable(src: OrtDevice, dst: OrtDevice, samePointer: bool, queueId: int)
    ensures Decide(src, dst, samePointer, queueId)
            == ActionOf(TableStrategy(Classify(src), Classify(dst)), samePointer, queueId)
  {
    var s, d := Classify(src), Classify(dst);
    var st := TableStrategy(s, d);
    if IsGpu(dst) {
      if IsPinnedHost(src) {
        assert st == AsyncHtoD;
      } else if IsGpu(src) {
        assert st == AsyncDtoD;
      } else {
        assert st == SyncHtoD;
      }
    } else if IsGpu(src) {
      if IsPinnedHost(dst) {
        assert st == AsyncDtoH;
      } else {
        assert st == SyncDtoH;
      }
    } else {
      assert st == PlainMemcpy;
    }
  }

  // ---------------------------------------------------------------------
  // How the capability query relates to the dispatch.

  /** A pair `CanCopy` refuses is still handled: by a plain `memcpy`, which
      succeeds whatever the runtime would have answered. */
  lemma RefusedPairsFallBackToMemcpy(streams: StreamTable, src: Tensor, dst: Tensor, execQueueId: int, rc: ErrorCode)
    requires Valid(streams)
    requires !CanCopy(src.device, dst.device)
    ensures CopyTensor(streams, src, dst, execQueueId, rc)
            == Transfer(Ok, [HostMemcpy(dst.data, src.data, src.sizeInBytes)])
  {
  }

  /** Every strategy other than `memcpy` is on a pair `CanCopy` accepts. */
  lemma DevicePathsAreCopyable(src: OrtDevice, dst: OrtDevice, samePointer: bool, queueId: int)
    requires Decide(src, dst, samePointer, queueId) != HostCopy
    ensures CanCopy(src, dst)
  {
  }

  /** The pairs `CanCopy` accepts but `CopyTensor` serves with `memcpy` are
      exactly the non-GPU pairs in which a side carries CUDA_PINNED: the
      capability test looks at the memory type alone, the dispatch also
      demands a CPU device. */
  lemma CopyableHostPairsUseMemcpy(src: OrtDevice, dst: OrtDevice, samePointer: bool, queueId: int)
    ensures CanCopy(src, dst) && Decide(src, dst, samePointer, queueId) == HostCopy
            <==> !IsGpu(src) && !IsGpu(dst) && (HasPinnedMemType(src) || HasPinnedMemType(dst))
  {
  }

  /** Pinned CPU memory to plain CPU memory: reported copyable, yet copied by
      `memcpy` with an OK status, whatever the selector and the runtime's answer. */
  lemma PinnedHostToHostIsCopyableMemcpy(streams: StreamTable, src: Tensor, dst: Tensor,
                                         execQueueId: int, rc: ErrorCode)
    requires Valid(streams)
    requires IsPinnedHost(src.device)
    requires dst.device.kind == CPU && dst.device.memType != CudaPinned
    ensures CanCopy(src.device, dst.device)
    ensures Decide(src.device, dst.device, src.data == dst.data, execQueueId) == HostCopy
    ensures CopyTensor(streams, src, dst, execQueueId, rc)
            == Transfer(Ok, [HostMemcpy(dst.data, src.data, src.sizeInBytes)])
  {
  }

  /** With the CopyIn and CopyOut slots aliased to the default stream, every
      asynchronous copy lands on the default stream, whatever the selector. */
  lemma AliasedTableUsesDefaultStream(rt: Runtime, inRc: ErrorCode, outRc: ErrorCode,
                                      src: Tensor, dst: Tensor, execQueueId: int, rc: ErrorCode)
    requires RuntimeValid(rt)
    requires UsesQueueSelector(src.device, dst.device) ==> 0 <= execQueueId < NumStreams
    ensures var t := Construct(true, rt, inRc, outRc).table;
            forall c :: c in CopyTensor(t, src, dst, execQueueId, rc).issued && c.MemcpyAsync? ==>
              c.stream == NullStream
  {
  }
}
