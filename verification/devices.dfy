/** The memory-location descriptor (`OrtDevice`) the copy engine reads, and
    the classification of an endpoint that every dispatch decision uses. */
module Devices {

  /** `OrtDevice::Type()`: the engine tests only for CPU and GPU. */
  datatype DeviceType = CPU | GPU | OtherDevice

  /** `OrtDevice::MemType()`: the engine tests only for CUDA_PINNED. */
  datatype MemType = DefaultMem | CudaPinned | OtherMem

  datatype OrtDevice = OrtDevice(kind: DeviceType, memType: MemType, id: int)

  predicate IsGpu(d: OrtDevice)
  {
    d.kind == GPU
  }

  /** The pinned test of `CanCopy`: the memory type alone, whatever the device type. */
  predicate HasPinnedMemType(d: OrtDevice)
  {
    d.memType == CudaPinned
  }

  /** The pinned test of `CopyTensor`: CPU memory that is also CUDA-pinned. */
  predicate IsPinnedHost(d: OrtDevice)
  {
    d.kind == CPU && d.memType == CudaPinned
  }

  /** The three classes of endpoint the dispatch tells apart. */
  datatype Endpoint = GpuMemory | PinnedHost | OtherHost

  function Classify(d: OrtDevice): (e: Endpoint)
    ensures e == GpuMemory <==> IsGpu(d)
    ensures e == PinnedHost <==> IsPinnedHost(d)
    ensures e == OtherHost <==> !IsGpu(d) && !IsPinnedHost(d)
  {
    if IsGpu(d) then GpuMemory
    else if IsPinnedHost(d) then PinnedHost
    else OtherHost
  }
}
