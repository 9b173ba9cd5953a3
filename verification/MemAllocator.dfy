/** CMemAllocator's fields and critical sections as the code writes them, each
    proved to be the step of the model. */
module MemAllocator {
  import opened Allocator

  class CMemAllocator {
    var free: seq<Sample>          // m_lFree, newest first
    var lAllocated: int
    var hasBuffer: bool            // m_pBuffer != NULL
    var bChanged: bool
    var props: Properties          // m_lCount, m_lSize, m_lAlignment, m_lPrefix
    var batches: nat               // tells the samples of different allocations apart
    var lWaiting: nat
    var sem: nat                   // the count of m_hSem
    var committed: bool
    var decommitting: bool         // m_bDecommitInProgress
    var refs: int                  // the references the allocator holds on itself

    ghost var outstanding: set<Sample>
    ghost var waiting: nat
    ghost var timeouts: nat

    ghost function Abs(): State
      reads this
    {
      State(Pool(free, outstanding, lAllocated, hasBuffer, bChanged, props, batches),
            Waiters(lWaiting, sem, waiting, timeouts), committed, decommitting, refs)
    }

    constructor ()
      ensures Abs() == Start()
    {
      free, lAllocated, hasBuffer, bChanged, props, batches := [], 0, false, false, Properties(0, 0, 0, 0), 0;
      lWaiting, sem, committed, decommitting, refs := 0, 0, false, false, 0;
      outstanding, waiting, timeouts := {}, 0, 0;
    }

    method SetProperties(request: Properties, alignOk: bool) returns (hr: HResult)
      modifies this`props, this`bChanged
      ensures (Abs(), hr) == Allocator.SetProperties(old(Abs()), request, alignOk)
      ensures hr == if !alignOk || request.cbAlign <= 0 then BadAlign
                    else if committed then AlreadyCommitted
                    else if |free| < lAllocated then BuffersOutstanding else Ok
      ensures if hr == Ok then bChanged && props == request.(cbBuffer := RoundedSize(request))
              else props == old(props) && bChanged == old(bChanged)
    {
      if !alignOk || request.cbAlign <= 0 {
        return BadAlign;
      }
      if committed {
        return AlreadyCommitted;
      }
      if |free| < lAllocated {
        return BuffersOutstanding;
      }
      var lSize := request.cbBuffer + request.cbPrefix;
      var lRemainder := Remainder(lSize, request.cbAlign);
      if lRemainder != 0 {
        lSize := lSize - lRemainder + request.cbAlign;
      }
      props := request.(cbBuffer := lSize - request.cbPrefix);
      bChanged := true;
      hr := Ok;
    }

    /** Alloc: one contiguous block, cut into samples that go on the free list. */
    method AllocSamples(m: Memory) returns (hr: HResult)
      requires PoolInv(Abs().pool) && outstanding == {}
      modifies this`free, this`lAllocated, this`hasBuffer, this`bChanged, this`batches
      ensures (Abs().pool, hr) == Alloc(old(Abs().pool), m)
    {
      if props.cBuffers <= 0 || props.cbBuffer <= 0 || props.cbAlign <= 0 {
        return SizeNotSet;
      }
      if !bChanged {
        return Ok;
      }
      if hasBuffer {
        FreeBlock();
      }
      if SlotSize(props) == 0 || !m.blockOk {
        return OutOfMemory;
      }
      hr := CutSamples(m.samples);
      if hr == Ok {
        bChanged := false;
      }
    }

    /** ReallyFree. */
    method FreeBlock()
      modifies this`free, this`lAllocated, this`hasBuffer
      ensures free == [] && lAllocated == 0 && !hasBuffer
    {
      while free != []
        decreases |free|
      {
        free := free[1..];
      }
      lAllocated := 0;
      hasBuffer := false;
    }

    method CutSamples(available: nat) returns (hr: HResult)
      requires lAllocated == 0 && props.cBuffers > 0
      modifies this`free, this`lAllocated, this`hasBuffer, this`batches
      ensures var n := if available < props.cBuffers then available else props.cBuffers;
              && hasBuffer && lAllocated == n && batches == old(batches) + 1
              && free == NewSamples(old(batches), n) + old(free)
              && hr == if n < props.cBuffers then OutOfMemory else Ok
    {
      hasBuffer := true;
      var batch := batches;
      batches := batches + 1;
      hr := Ok;
      while lAllocated < props.cBuffers
        invariant 0 <= lAllocated <= props.cBuffers && lAllocated <= available
        invariant free == NewSamples(batch, lAllocated) + old(free)
        invariant hasBuffer && batches == batch + 1
      {
        if lAllocated == available {
          return OutOfMemory;
        }
        free := [Sample(batch, lAllocated)] + free;
        lAllocated := lAllocated + 1;
      }
    }

    method NotifySample()
      modifies this`lWaiting, this`sem
      ensures Abs() == old(Abs()).(w := Notify(old(Abs()).w))
      ensures lWaiting == 0 && sem == old(sem) + old(lWaiting)
    {
      if lWaiting != 0 {
        sem := sem + lWaiting;
        lWaiting := 0;
      }
    }

    method Commit(m: Memory) returns (hr: HResult)
      requires LifeInv(Abs())
      modifies this`free, this`lAllocated, this`hasBuffer, this`bChanged, this`batches
      modifies this`committed, this`decommitting, this`refs
      ensures (Abs(), hr) == Allocator.Commit(old(Abs()), m)
      ensures hr == Ok <==> committed
      ensures old(committed || decommitting) ==> hr == Ok && !decommitting && free == old(free) && refs == old(refs)
      ensures !old(committed || decommitting) ==> refs == old(refs) + if hr == Ok then 1 else 0
    {
      if committed {
        return Ok;
      }
      committed := true;
      if decommitting {
        decommitting := false;
        return Ok;
      }
      hr := AllocSamples(m);
      if hr != Ok {
        committed := false;
        return;
      }
      refs := refs + 1;
    }

    method Decommit()
      modifies this`committed, this`decommitting, this`lWaiting, this`sem, this`refs
      ensures Abs() == Allocator.Decommit(old(Abs()))
      ensures !committed && (decommitting <==> old(committed || decommitting) && |free| < lAllocated)
      ensures old(committed || decommitting) ==> lWaiting == 0 && sem == old(sem) + old(lWaiting)
      ensures refs == old(refs) - if old(committed || decommitting) && !decommitting then 1 else 0
    {
      if !committed && !decommitting {
        return;
      }
      committed := false;
      var bRelease := false;
      if |free| < lAllocated {
        decommitting := true;
      } else {
        decommitting := false;
        bRelease := true;
      }
      NotifySample();
      if bRelease {
        refs := refs - 1;
      }
    }

    /** GetBuffer's critical section: a sample, a refusal, or the duty to wait. */
    method LockedGetBuffer(noWait: bool) returns (hr: HResult, sample: Sample)
      modifies this`free, this`outstanding, this`lWaiting, this`waiting, this`timeouts
      ensures (Abs(), hr) == TryGetBuffer(old(Abs()), noWait)
      ensures hr == if !old(committed) then NotCommitted else if old(free) != [] then Ok else if noWait then Timeout else Wait
      ensures if hr == Ok then sample == old(free)[0] && free == old(free)[1..] && outstanding == old(outstanding) + {sample}
              else free == old(free) && outstanding == old(outstanding)
      ensures lWaiting == old(lWaiting) + if hr == Timeout || hr == Wait then 1 else 0
    {
      sample := Sample(0, 0);
      if !committed {
        return NotCommitted, sample;
      }
      if free != [] {
        sample := free[0];
        free := free[1..];
        outstanding := outstanding + {sample};
        return Ok, sample;
      }
      lWaiting := lWaiting + 1;
      if noWait {
        timeouts := timeouts + 1;
        return Timeout, sample;
      }
      waiting := waiting + 1;
      hr := Wait;
    }

    method ReleaseBuffer(x: Sample)
      requires x in outstanding
      modifies this`free, this`outstanding, this`lWaiting, this`sem, this`decommitting, this`refs
      ensures Abs() == Allocator.ReleaseBuffer(old(Abs()), x)
      ensures free == [x] + old(free) && outstanding == old(outstanding) - {x}
      ensures lWaiting == 0 && sem == old(sem) + old(lWaiting)
      ensures decommitting <==> old(decommitting) && |free| != lAllocated
      ensures refs == old(refs) - if old(decommitting) && !decommitting then 1 else 0
    {
      free := [x] + free;
      outstanding := outstanding - {x};
      if lWaiting != 0 {
        NotifySample();
      }
      var bRelease := false;
      if decommitting && |free| == lAllocated {
        decommitting := false;
        bRelease := true;
      }
      if bRelease {
        refs := refs - 1;
      }
    }
  }
}
