/** The engine's stream table: three `cudaStream_t` slots filled by the
    constructor and released by the destructor, together with the runtime's
    record of which created streams are still alive. */
module Streams {
  import opened CudaStatus

  /** A `cudaStream_t`: the null handle (the device's default stream) or a
      stream the runtime created and named by `handle`. */
  datatype Stream = NullStream | Created(handle: nat)

  /** The indices of `streams_`. */
  const DefaultSlot: int := 0
  const CopyInSlot: int := 1
  const CopyOutSlot: int := 2
  const NumStreams: int := 3

  datatype StreamTable = StreamTable(slots: seq<Stream>)

  /** What a constructed table always satisfies: three slots, the default one
      null, CopyIn and CopyOut either both null (aliased to the default stream)
      or two different created streams. */
  predicate Valid(t: StreamTable)
  {
    && |t.slots| == NumStreams
    && t.slots[DefaultSlot] == NullStream
    && (t.slots[CopyInSlot].NullStream? <==> t.slots[CopyOutSlot].NullStream?)
    && (t.slots[CopyInSlot].Created? ==> t.slots[CopyInSlot] != t.slots[CopyOutSlot])
  }

  /** The handles of the streams the table created itself. */
  function Owned(t: StreamTable): set<nat>
    requires |t.slots| == NumStreams
  {
    (if t.slots[CopyInSlot].Created? then {t.slots[CopyInSlot].handle} else {})
    + (if t.slots[CopyOutSlot].Created? then {t.slots[CopyOutSlot].handle} else {})
  }

  /** The runtime's stream bookkeeping: every handle handed out so far is
      below `next`; `live` holds the ones not yet destroyed. */
  datatype Runtime = Runtime(next: nat, live: set<nat>)

  predicate RuntimeValid(rt: Runtime)
  {
    forall h :: h in rt.live ==> h < rt.next
  }

  /** The stream-management calls the engine makes on the runtime. */
  datatype StreamCall = StreamCreateNonBlocking | StreamDestroy(handle: nat)

  /** A successful `cudaStreamCreateWithFlags(.., cudaStreamNonBlocking)`. */
  datatype Creation = Creation(stream: Stream, rt: Runtime)

  function CreateStream(rt: Runtime): (c: Creation)
    requires RuntimeValid(rt)
    ensures c.stream.Created? && c.stream.handle !in rt.live
    ensures RuntimeValid(c.rt) && c.rt.next > c.stream.handle
    ensures c.rt.live == rt.live + {c.stream.handle}
  {
    Creation(Created(rt.next), Runtime(rt.next + 1, rt.live + {rt.next}))
  }

  /** The outcome of the constructor: a table, or the exception that
      `CUDA_CALL_THROW` raised, with the runtime state and the calls made. */
  datatype Construction =
    | Constructed(table: StreamTable, rt: Runtime, calls: seq<StreamCall>)
    | Threw(code: ErrorCode, rt: Runtime, calls: seq<StreamCall>)

  /** `GPUDataTransfer(do_copy_in_default_stream)`. `inRc` and `outRc` are the
      runtime's answers to the CopyIn and CopyOut creation calls. */
  function Construct(doCopyInDefaultStream: bool, rt: Runtime, inRc: ErrorCode, outRc: ErrorCode): (c: Construction)
    requires RuntimeValid(rt)
    ensures RuntimeValid(c.rt)
    ensures c.Constructed? ==> Valid(c.table)
    // aliased: all three slots null, no runtime call, nothing created
    ensures doCopyInDefaultStream ==>
      && c.Constructed?
      && (forall i :: 0 <= i < NumStreams ==> c.table.slots[i] == c.table.slots[DefaultSlot])
      && c.calls == [] && c.rt == rt
    // own streams: success exactly when both creations succeed
    ensures !doCopyInDefaultStream ==>
      (c.Constructed? <==> inRc == CudaSuccess && outRc == CudaSuccess)
    ensures !doCopyInDefaultStream && c.Constructed? ==>
      && c.table.slots[CopyInSlot].Created?
      && c.table.slots[CopyOutSlot].Created?
      && Owned(c.table) !! rt.live
      && c.rt.live == rt.live + Owned(c.table)
      && c.calls == [StreamCreateNonBlocking, StreamCreateNonBlocking]
    // a failing first creation throws before the second is attempted
    ensures !doCopyInDefaultStream && inRc != CudaSuccess ==>
      && c.Threw? && c.code == inRc
      && c.calls == [StreamCreateNonBlocking]
      && c.rt.live == rt.live
    // a failing second creation throws and leaves the CopyIn stream alive
    ensures !doCopyInDefaultStream && inRc == CudaSuccess && outRc != CudaSuccess ==>
      && c.Threw? && c.code == outRc
      && c.calls == [StreamCreateNonBlocking, StreamCreateNonBlocking]
      && rt.live < c.rt.live
  {
    if doCopyInDefaultStream then
      Constructed(StreamTable([NullStream, NullStream, NullStream]), rt, [])
    else if inRc != CudaSuccess then
      Threw(inRc, rt, [StreamCreateNonBlocking])
    else
      var copyIn := CreateStream(rt);
      if outRc != CudaSuccess then
        Threw(outRc, copyIn.rt, [StreamCreateNonBlocking, StreamCreateNonBlocking])
      else
        var copyOut := CreateStream(copyIn.rt);
        Constructed(StreamTable([NullStream, copyIn.stream, copyOut.stream]), copyOut.rt,
                    [StreamCreateNonBlocking, StreamCreateNonBlocking])
  }

  /** `cudaStreamDestroy`: a stream the runtime refuses to destroy stays alive. */
  function DestroyStream(rt: Runtime, h: nat, rc: ErrorCode): Runtime
  {
    if rc == CudaSuccess then Runtime(rt.next, rt.live - {h}) else rt
  }

  /** The destructor never reports anything: it has no status, only an effect. */
  datatype Teardown = Teardown(rt: Runtime, calls: seq<StreamCall>)

  /** `~GPUDataTransfer()`. `inRc` and `outRc` are the runtime's answers to the
      two destroy calls; `CUDA_CALL` only logs a failure. */
  function Destruct(t: StreamTable, rt: Runtime, inRc: ErrorCode, outRc: ErrorCode): (d: Teardown)
    requires Valid(t)
    ensures forall call :: call in d.calls ==> call.StreamDestroy? && call.handle in Owned(t)
    ensures forall h :: h in Owned(t) ==> StreamDestroy(h) in d.calls
    ensures |d.calls| == |Owned(t)|
    ensures d.rt.next == rt.next
    ensures rt.live - Owned(t) <= d.rt.live <= rt.live
    ensures inRc == CudaSuccess && outRc == CudaSuccess ==> d.rt.live == rt.live - Owned(t)
  {
    var copyIn := t.slots[CopyInSlot];
    var copyOut := t.slots[CopyOutSlot];
    var rt1 := if copyIn.Created? then DestroyStream(rt, copyIn.handle, inRc) else rt;
    var rt2 := if copyOut.Created? then DestroyStream(rt1, copyOut.handle, outRc) else rt1;
    var calls := (if copyIn.Created? then [StreamDestroy(copyIn.handle)] else [])
                 + (if copyOut.Created? then [StreamDestroy(copyOut.handle)] else []);
    Teardown(rt2, calls)
  }

  /** Construction followed by an error-free destruction gives the runtime
      back exactly the streams it had: the table releases what it created and
      nothing else; with aliasing it makes no runtime call at all. */
  lemma LifecycleReleasesWhatItCreated(doCopyInDefaultStream: bool, rt: Runtime, inRc: ErrorCode, outRc: ErrorCode)
    requires RuntimeValid(rt)
    requires Construct(doCopyInDefaultStream, rt, inRc, outRc).Constructed?
    ensures var c := Construct(doCopyInDefaultStream, rt, inRc, outRc);
            var d := Destruct(c.table, c.rt, CudaSuccess, CudaSuccess);
            && d.rt.live == rt.live
            && (doCopyInDefaultStream ==> d.calls == [])
  {
    var c := Construct(doCopyInDefaultStream, rt, inRc, outRc);
    var d := Destruct(c.table, c.rt, CudaSuccess, CudaSuccess);
    assert d.rt.live == (rt.live + Owned(c.table)) - Owned(c.table);
  }
}
