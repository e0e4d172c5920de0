# GPUDataTransfer: a Dafny model of the CUDA cross-device copy engine

This project models `GPUDataTransfer`, the ONNX Runtime component that moves
tensor buffers between CPU memory, CUDA-pinned host memory and GPU memory.
It has three parts:

- the **stream table**: three `cudaStream_t` slots (Default, CopyIn, CopyOut).
  The constructor fills them and the destructor releases them. The Default
  slot is always the null stream. CopyIn and CopyOut are either aliased to it
  (`do_copy_in_default_stream == true`) or hold two freshly created
  non-blocking streams.
- the **capability query** `CanCopy` over two `OrtDevice` descriptors.
  `CanCopy` tests only the CUDA_PINNED memory type, whatever the device type
  (gpu_data_transfer.cc:34-35). The dispatch also requires a CPU device
  (:47, :64). So pinned CPU → plain CPU is reported copyable but is served by
  `memcpy` (`CopyableHostPairsUseMemcpy`, `PinnedHostToHostIsCopyableMemcpy`).
- the **dispatch** `CopyTensor`. It picks one of six strategies for a
  (source, destination) pair and issues at most one copy primitive.

Modules, in dependency order:

- `CudaStatus` (`cuda_status.dfy`): `cudaError_t` codes and the engine's `Status`.
- `Devices` (`devices.dfy`): `OrtDevice`, and the classifier into GPU memory,
  pinned CPU memory and other host memory.
- `Streams` (`streams.dfy`): the stream table, and the runtime's record of live
  streams. The constructor and the destructor are state transitions on it.
- `DataTransfer` (`data_transfer.dfy`): `CanCopy`, the total decision function
  `Decide`, and `CopyTensor`. It also holds the dispatch written as a
  first-match table over classified endpoints. That table is an independent
  reference definition, and a lemma proves the decision tree equal to it.
- `DeviceMemory` (`device_memory.dfy`): memory as a map from address to
  bytes, and each stream as a FIFO queue of pending copies. On this model,
  "after the stream is drained, the destination holds the source's bytes" is
  proved, and so are two host→device→host round trips.

The CUDA runtime is abstract. Every runtime call takes its answer
(`cudaError_t`, where 0 is `cudaSuccess`) as a parameter, so every failure
path can be reached. `CopyTensor` returns a `Transfer`: the `Status` and the
list of primitives it issued. The destructor returns only the runtime state
and the calls it made, because it never reports an error.

The C++ code indexes `streams_[exec_queue_id]` without a bounds check. Callers
must keep the selector in range, but only on the two asynchronous
host-boundary paths, which are the only paths that read it. `CopyTensor`'s
precondition says exactly that (`UsesQueueSelector`).

## Model

| member | source | states |
|---|---|---|
| Streams.Construct | onnxruntime/core/providers/cuda/gpu_data_transfer.cc:12-22 | With aliasing, every slot equals the null Default slot, no runtime call is made and the runtime is unchanged. Without aliasing, construction succeeds iff both creations succeed. On success CopyIn and CopyOut hold two distinct streams that were not live before, and the live set grows by exactly those two. A failed first creation throws its code before the second is attempted. A failed second creation throws its code and leaves the CopyIn stream alive. A constructed table always satisfies the table invariant. |
| Streams.CreateStream | onnxruntime/core/providers/cuda/gpu_data_transfer.cc:19-20 | A successful non-blocking stream creation yields a non-null handle that was not live, and adds exactly that handle to the live set. |
| Streams.Destruct | onnxruntime/core/providers/cuda/gpu_data_transfer.cc:24-31 | One destroy call per non-null CopyIn/CopyOut slot and no other call, so the Default stream is never destroyed and aliasing makes no call. A failing destroy is not propagated: the other slot is still destroyed. Only owned streams leave the live set, and all of them do when no destroy fails. |
| Streams.LifecycleReleasesWhatItCreated | onnxruntime/core/providers/cuda/gpu_data_transfer.cc:12-31 | A successful construction followed by an error-free destruction leaves the runtime's live streams exactly as before. With aliasing, the destructor makes no call. |
| Devices.Classify | onnxruntime/core/providers/cuda/gpu_data_transfer.cc:46-47 | Each device falls into exactly one class: GPU memory, pinned CPU memory (CPU type and CUDA_PINNED memtype together), or other host memory. |
| DataTransfer.CanCopy | onnxruntime/core/providers/cuda/gpu_data_transfer.cc:33-36 | True iff either side is GPU or either side has the CUDA_PINNED memtype, whatever its device type. A refused pair has two non-GPU, non-pinned-CPU sides. |
| DataTransfer.Decide | onnxruntime/core/providers/cuda/gpu_data_transfer.cc:46-76 | `memcpy` iff neither side is GPU. Elided iff both sides are GPU with equal pointers. Asynchronous iff the selector path applies or it is a GPU→GPU copy with different pointers. The copy kind agrees with which side is GPU. GPU→GPU uses the Default slot and the host-boundary async paths use the selector. |
| DataTransfer.CopyTensor | onnxruntime/core/providers/cuda/gpu_data_transfer.cc:38-79 | At most one primitive, always dst←src over `SizeInBytes()` of src. The status is OK or the runtime's own code, and it fails iff a CUDA primitive was issued and answered non-zero. Pinned CPU→GPU: async host→device on `streams_[exec_queue_id]`. GPU→GPU: async device→device on the null Default stream, or nothing and OK when the pointers are equal. Other→GPU: blocking host→device. GPU→pinned CPU: async device→host on the selected stream. GPU→other: blocking device→host. Neither GPU: `memcpy` and OK. |
| DataTransfer.FirstMatch | onnxruntime/core/providers/cuda/gpu_data_transfer.cc:46-76 | Returns `Some` strategy iff some row matches, and then it is the strategy of a matching row with no earlier matching row (first match wins). |
| DataTransfer.RowFor | onnxruntime/core/providers/cuda/gpu_data_transfer.cc:46-76 | Every pair of endpoint classes is matched by a row of the dispatch table. |
| DataTransfer.DispatchTablePartitions | onnxruntime/core/providers/cuda/gpu_data_transfer.cc:46-76 | For every pair of endpoint classes exactly one row matches, so the branches are exhaustive and mutually exclusive. |
| DataTransfer.FirstMatchIsTableStrategy | onnxruntime/core/providers/cuda/gpu_data_transfer.cc:46-76 | Reading the table in priority order selects the strategy of the one row that serves the pair. |
| DataTransfer.DecideFollowsDispatchTable | onnxruntime/core/providers/cuda/gpu_data_transfer.cc:46-76 | The nested conditionals choose exactly the action of the six-row table applied to the classified endpoints. A GPU→GPU row with equal pointers becomes the elided copy. |
| DataTransfer.RefusedPairsFallBackToMemcpy | onnxruntime/core/providers/cuda/gpu_data_transfer.cc:33-36 | A pair `CanCopy` refuses is still handled by `CopyTensor`, with a single `memcpy` and an OK status, whatever the runtime would answer. |
| DataTransfer.DevicePathsAreCopyable | onnxruntime/core/providers/cuda/gpu_data_transfer.cc:33-76 | Every strategy other than `memcpy` is chosen only for pairs `CanCopy` accepts. |
| DataTransfer.CopyableHostPairsUseMemcpy | onnxruntime/core/providers/cuda/gpu_data_transfer.cc:33-76 | `CanCopy` accepts a pair that `CopyTensor` serves with `memcpy` iff neither side is GPU and some side has the CUDA_PINNED memtype. |
| DataTransfer.PinnedHostToHostIsCopyableMemcpy | onnxruntime/core/providers/cuda/gpu_data_transfer.cc:33-76 | For every pinned CPU source and plain (non-pinned) CPU destination, whatever the pointers, selector and runtime answer: `CanCopy` reports the pair copyable, yet `Decide` falls through to `memcpy` and `CopyTensor` issues one `memcpy` and returns OK. |
| DataTransfer.AliasedTableUsesDefaultStream | onnxruntime/core/providers/cuda/gpu_data_transfer.cc:15-17 | In the aliased configuration every asynchronous copy goes to the null Default stream, whatever `exec_queue_id` is. |
| DeviceMemory.ApplyCopy | onnxruntime/core/providers/cuda/gpu_data_transfer.cc:75 | One copy changes only the destination buffer. In range, the destination's first `count` bytes become the source's and the rest of it is unchanged. |
| DeviceMemory.ApplyAllAppend | onnxruntime/core/providers/cuda/gpu_data_transfer.cc:50 | Performing a queue and then one more copy is the same as performing the extended queue. |
| DeviceMemory.Drain | onnxruntime/core/providers/cuda/gpu_data_transfer.cc:50 | Draining a stream empties its queue, leaves every other stream's queue unchanged, and keeps the set of buffers. |
| DeviceMemory.DrainRunsInIssueOrder | onnxruntime/core/providers/cuda/gpu_data_transfer.cc:50 | A copy issued on a stream takes effect after everything already queued on that stream. |
| DeviceMemory.SettledCopyMatchesSource | onnxruntime/core/providers/cuda/gpu_data_transfer.cc:38-79 | Start with nothing queued and two equal-size buffers. After a successful `CopyTensor` and a drain of the stream it used, the destination holds exactly the source's bytes, no other buffer changed, and nothing is queued. |
| DeviceMemory.HostDeviceRoundTrip | onnxruntime/core/providers/cuda/gpu_data_transfer.cc:46-72 | Host→GPU then GPU→host, draining after each copy, gives back the original bytes and leaves the original buffer untouched. The queue selectors need to be in range only on the paths that read them. |
| DeviceMemory.AliasedRoundTripNeedsOneDrain | onnxruntime/core/providers/cuda/gpu_data_transfer.cc:15-17 | In the aliased configuration, pinned→GPU→pinned needs one drain of the Default stream at the end, because both copies queue there in order. |
| DeviceMemory.ZeroByteCopyMovesNothing | onnxruntime/core/providers/cuda/gpu_data_transfer.cc:38-79 | A zero-byte copy, from an idle start into a destination buffer of any size, leaves memory unchanged whichever path it takes and whatever the runtime answers; it returns OK when the runtime answers success. |

## Left out

- The logging lines in `CopyTensor` (gpu_data_transfer.cc:49,55,60,66,70) are console output with no effect on the result.
- The destructor's `CUDA_CALL` logging is left out. The model keeps only that a failed destroy is not propagated and leaves that stream alive.
- Real CUDA concurrency is left out: cross-stream ordering, the non-blocking flag's effect, and the caching-arena race the comment at gpu_data_transfer.cc:7-10 mentions. Streams are independent FIFO queues that take effect only when drained. A blocking `cudaMemcpy` takes effect at once and does not wait for the legacy default stream.
- The contents of memory after a failed copy are unspecified in the C++ code. The memory lemmas are stated only for successful calls.
- Overlapping source and destination ranges are not modelled. A copy range outside either buffer is undefined behaviour in the C++ code; in the model it changes nothing.
- `OrtDevice::Id()` is carried but does not affect dispatch; the C++ code reads it only for logging.
- The exception-throwing C++ wrappers of the C API (include/onnxruntime/core/session/onnxruntime_cxx_api.h) are resource-ownership boilerplate over foreign calls, so they are not part of this model.
- `size_t` byte counts and pointers are unbounded naturals. Nothing in the engine does arithmetic on them, so no wrap-around can arise.
