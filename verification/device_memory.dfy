/** The effect of the copy primitives on memory: buffers as byte sequences
    keyed by address, and each stream as a FIFO queue of pending copies that
    take effect when the stream is drained. */
module DeviceMemory {
  import opened CudaStatus
  import opened Devices
  import opened Streams
  import opened DataTransfer

  newtype uint8 = x: int | 0 <= x < 256

  type Memory = map<Addr, seq<uint8>>

  /** A copy of `count` bytes from `src` to `dst`, not yet performed. */
  datatype PendingCopy = PendingCopy(dst: Addr, src: Addr, count: nat)

  datatype Machine = Machine(mem: Memory, queues: map<Stream, seq<PendingCopy>>)

  /** Performs one copy: the first `count` bytes of `dst` become those of
      `src`, nothing else changes. A range outside either buffer is undefined
      behaviour in the C++ code; here it changes nothing. */
  function ApplyCopy(mem: Memory, p: PendingCopy): (mem': Memory)
    ensures mem'.Keys == mem.Keys
    ensures forall a :: a in mem && a != p.dst ==> mem'[a] == mem[a]
    ensures p.src in mem && p.dst in mem && p.count <= |mem[p.src]| && p.count <= |mem[p.dst]| ==>
      && |mem'[p.dst]| == |mem[p.dst]|
      && mem'[p.dst][..p.count] == mem[p.src][..p.count]
      && mem'[p.dst][p.count..] == mem[p.dst][p.count..]
  {
    if p.src in mem && p.dst in mem && p.count <= |mem[p.src]| && p.count <= |mem[p.dst]| then
      mem[p.dst := mem[p.src][..p.count] + mem[p.dst][p.count..]]
    else mem
  }

  /** Performs a queue of copies in order. */
  function ApplyAll(mem: Memory, ps: seq<PendingCopy>): (mem': Memory)
    ensures mem'.Keys == mem.Keys
    decreases |ps|
  {
    if |ps| == 0 then mem else ApplyAll(ApplyCopy(mem, ps[0]), ps[1..])
  }

  /** Performing a queue and then one more copy is performing the longer queue. */
  lemma {:induction false} ApplyAllAppend(mem: Memory, ps: seq<PendingCopy>, p: PendingCopy)
    ensures ApplyAll(mem, ps + [p]) == ApplyCopy(ApplyAll(mem, ps), p)
    decreases |ps|
  {
    if |ps| == 0 {
      assert ps + [p] == [p];
      assert [p][1..] == [];
    } else {
      assert (ps + [p])[1..] == ps[1..] + [p];
      ApplyAllAppend(ApplyCopy(mem, ps[0]), ps[1..], p);
    }
  }

  function PendingOn(m: Machine, s: Stream): seq<PendingCopy>
  {
    if s in m.queues then m.queues[s] else []
  }

  /** No stream has work outstanding. */
  predicate Idle(m: Machine)
  {
    forall s :: s in m.queues ==> m.queues[s] == []
  }

  /** Appends a copy to the tail of a stream's queue. */
  function Enqueue(m: Machine, s: Stream, p: PendingCopy): Machine
  {
    Machine(m.mem, m.queues[s := PendingOn(m, s) + [p]])
  }

  /** Waits for a stream: its queued copies take effect in issue order. */
  function Drain(m: Machine, s: Stream): (m': Machine)
    ensures PendingOn(m', s) == []
    ensures forall s' :: s' != s ==> PendingOn(m', s') == PendingOn(m, s')
    ensures m'.mem.Keys == m.mem.Keys
  {
    Machine(ApplyAll(m.mem, PendingOn(m, s)), m.queues[s := []])
  }

  /** Issuing a primitive: an asynchronous copy joins its stream's queue, a
      blocking copy or `memcpy` has taken effect when it returns. */
  function Issue(m: Machine, c: CopyCall): Machine
  {
    match c
    case MemcpyAsync(dst, src, count, _, s) => Enqueue(m, s, PendingCopy(dst, src, count))
    case Memcpy(dst, src, count, _) => Machine(ApplyCopy(m.mem, PendingCopy(dst, src, count)), m.queues)
    case HostMemcpy(dst, src, count) => Machine(ApplyCopy(m.mem, PendingCopy(dst, src, count)), m.queues)
  }

  /** Issues what one `CopyTensor` call issued. */
  function Run(m: Machine, r: Transfer): Machine
  {
    if |r.issued| == 0 then m else Issue(m, r.issued[0])
  }

  /** Waits for the stream the call used, if it used one. */
  function Settle(m: Machine, r: Transfer): Machine
  {
    if |r.issued| > 0 && r.issued[0].MemcpyAsync? then Drain(m, r.issued[0].stream) else m
  }

  /** A stream is FIFO: a copy issued on it takes effect after everything
      already queued there. */
  lemma DrainRunsInIssueOrder(m: Machine, s: Stream, p: PendingCopy)
    ensures Drain(Enqueue(m, s, p), s).mem == ApplyCopy(Drain(m, s).mem, p)
  {
    assert PendingOn(Enqueue(m, s, p), s) == PendingOn(m, s) + [p];
    ApplyAllAppend(m.mem, PendingOn(m, s), p);
  }

  /** The buffers of a copy exist and have the size of the source tensor. */
  predicate Fits(m: Machine, src: Tensor, dst: Tensor)
  {
    && src.data in m.mem && dst.data in m.mem
    && |m.mem[src.data]| == src.sizeInBytes && |m.mem[dst.data]| == src.sizeInBytes
  }

  /** A successful `CopyTensor` between buffers of equal size, once the
      stream it used has been drained, leaves the destination holding the
      source's bytes and changes no other buffer; no work is left queued. */
  lemma SettledCopyMatchesSource(streams: StreamTable, src: Tensor, dst: Tensor, execQueueId: int, rc: ErrorCode, m: Machine)
    requires Valid(streams)
    requires UsesQueueSelector(src.device, dst.device) ==> 0 <= execQueueId < NumStreams
    requires CopyTensor(streams, src, dst, execQueueId, rc).status.Ok?
    requires Idle(m) && Fits(m, src, dst)
    ensures var r := CopyTensor(streams, src, dst, execQueueId, rc);
            var m' := Settle(Run(m, r), r);
            Idle(m') && m'.mem == m.mem[dst.data := m.mem[src.data]]
  {
    var r := CopyTensor(streams, src, dst, execQueueId, rc);
    var n := src.sizeInBytes;
    var p := PendingCopy(dst.data, src.data, n);
    var expected := m.mem[dst.data := m.mem[src.data]];
    if |r.issued| == 0 {
      assert src.data == dst.data;
      assert m.mem == expected;
    } else {
      var c := r.issued[0];
      assert c.dst == dst.data && c.src == src.data && c.count == n;
      var m' := Settle(Run(m, r), r);
      assert ApplyCopy(m.mem, p) == expected by {
        assert m.mem[src.data][..n] == m.mem[src.data];
        assert m.mem[dst.data][n..] == [];
        assert m.mem[src.data][..n] + m.mem[dst.data][n..] == m.mem[src.data];
      }
      if c.MemcpyAsync? {
        assert PendingOn(Run(m, r), c.stream) == [p];
        assert m'.mem == ApplyAll(m.mem, [p]);
        assert m'.queues == m.queues[c.stream := [p]][c.stream := []];
        assert Idle(m');
        assert ApplyAll(m.mem, [p]) == ApplyAll(ApplyCopy(m.mem, p), []);
        assert m'.mem == expected;
      }
    }
  }

  /** A buffer sent from the host to a device and back, waiting for each copy
      before issuing the next, comes back byte for byte; the original host
      buffer is untouched. */
  lemma HostDeviceRoundTrip(streams: StreamTable, host: Tensor, dev: Tensor, back: Tensor,
                            inQueue: int, outQueue: int, m: Machine)
    requires Valid(streams)
    requires UsesQueueSelector(host.device, dev.device) ==> 0 <= inQueue < NumStreams
    requires UsesQueueSelector(dev.device, back.device) ==> 0 <= outQueue < NumStreams
    requires !IsGpu(host.device) && IsGpu(dev.device) && !IsGpu(back.device)
    requires host.data != dev.data && dev.data != back.data && host.data != back.data
    requires dev.sizeInBytes == host.sizeInBytes
    requires Idle(m) && Fits(m, host, dev) && Fits(m, dev, back)
    ensures var r1 := CopyTensor(streams, host, dev, inQueue, CudaSuccess);
            var m1 := Settle(Run(m, r1), r1);
            var r2 := CopyTensor(streams, dev, back, outQueue, CudaSuccess);
            var m2 := Settle(Run(m1, r2), r2);
            && m2.mem[back.data] == m.mem[host.data]
            && m2.mem[host.data] == m.mem[host.data]
            && Idle(m2)
  {
    var r1 := CopyTensor(streams, host, dev, inQueue, CudaSuccess);
    SettledCopyMatchesSource(streams, host, dev, inQueue, CudaSuccess, m);
    var m1 := Settle(Run(m, r1), r1);
    assert m1.mem == m.mem[dev.data := m.mem[host.data]];
    SettledCopyMatchesSource(streams, dev, back, outQueue, CudaSuccess, m1);
  }

  /** With the CopyIn and CopyOut slots aliased to the default stream, a
      pinned host buffer sent to a device and back needs a single wait at the
      end: both asynchronous copies sit in the one default queue, in order. */
  lemma AliasedRoundTripNeedsOneDrain(rt: Runtime, host: Tensor, dev: Tensor, back: Tensor,
                                      inQueue: int, outQueue: int, m: Machine)
    requires RuntimeValid(rt)
    requires 0 <= inQueue < NumStreams && 0 <= outQueue < NumStreams
    requires IsPinnedHost(host.device) && IsGpu(dev.device) && IsPinnedHost(back.device)
    requires host.data != dev.data && dev.data != back.data && host.data != back.data
    requires dev.sizeInBytes == host.sizeInBytes
    requires Idle(m) && Fits(m, host, dev) && Fits(m, dev, back)
    ensures var t := Construct(true, rt, CudaSuccess, CudaSuccess).table;
            var r1 := CopyTensor(t, host, dev, inQueue, CudaSuccess);
            var r2 := CopyTensor(t, dev, back, outQueue, CudaSuccess);
            var m2 := Drain(Run(Run(m, r1), r2), NullStream);
            m2.mem[back.data] == m.mem[host.data]
  {
    var t := Construct(true, rt, CudaSuccess, CudaSuccess).table;
    var n := host.sizeInBytes;
    var p1 := PendingCopy(dev.data, host.data, n);
    var p2 := PendingCopy(back.data, dev.data, n);
    var r1 := CopyTensor(t, host, dev, inQueue, CudaSuccess);
    var r2 := CopyTensor(t, dev, back, outQueue, CudaSuccess);
    assert Run(m, r1) == Enqueue(m, NullStream, p1);
    assert Run(Run(m, r1), r2) == Enqueue(Enqueue(m, NullStream, p1), NullStream, p2);
    DrainRunsInIssueOrder(Enqueue(m, NullStream, p1), NullStream, p2);
    DrainRunsInIssueOrder(m, NullStream, p1);
    assert Drain(m, NullStream).mem == m.mem;
    var mem1 := ApplyCopy(m.mem, p1);
    assert mem1[dev.data] == m.mem[host.data] by {
      assert mem1[dev.data][..n] == m.mem[host.data][..n];
    }
  }

  /** Copying a zero-byte buffer moves no data, whichever path it takes and
      whatever the size of the destination buffer; it succeeds when the
      runtime answers success. */
  lemma ZeroByteCopyMovesNothing(streams: StreamTable, src: Tensor, dst: Tensor, execQueueId: int,
                                 rc: ErrorCode, m: Machine)
    requires Valid(streams)
    requires UsesQueueSelector(src.device, dst.device) ==> 0 <= execQueueId < NumStreams
    requires src.sizeInBytes == 0
    requires Idle(m) && src.data in m.mem && dst.data in m.mem
    ensures var r := CopyTensor(streams, src, dst, execQueueId, rc);
            && (rc == CudaSuccess ==> r.status == Ok)
            && Settle(Run(m, r), r).mem == m.mem
  {
    var r := CopyTensor(streams, src, dst, execQueueId, rc);
    var p := PendingCopy(dst.data, src.data, 0);
    assert ApplyCopy(m.mem, p) == m.mem by {
      assert m.mem[src.data][..0] + m.mem[dst.data][0..] == m.mem[dst.data];
    }
    if |r.issued| > 0 && r.issued[0].MemcpyAsync? {
      assert PendingOn(Run(m, r), r.issued[0].stream) == [p];
      assert ApplyAll(m.mem, [p]) == ApplyAll(ApplyCopy(m.mem, p), []);
    }
  }
}
