/** FrameQueue: the ring buffer of DV frames, with one slot more than its
    capacity (core/FrameQueue.h, core/FrameQueue.cpp). */
module FrameQueue {
  import Arithmetic
  import opened Options

  newtype byte = x: int | 0 <= x < 256

  /** One DV frame as the source hands it in. */
  datatype FrameData = FrameData(duration: int, bytes: seq<byte>)

  /** FrameQueue::Frame: the data is a span into the ring's storage. */
  datatype Frame = Frame(duration: int, offset: nat, length: nat)

  datatype PutResult = Accepted | Refused | TooLong

  /** i + k on a ring of n slots. */
  function Wrap(i: nat, k: nat, n: nat): (r: nat)
    requires i < n && k <= n
    ensures r < n
  {
    if i + k < n then i + k else i + k - n
  }

  lemma {:induction false} WrapIsModulo(i: nat, k: nat, n: nat)
    requires i < n && k <= n
    ensures Wrap(i, k, n) == (i + k) % n
  {
    if i + k >= n { Arithmetic.QuotientUnique(i + k, n, 1, i + k - n); }
  }

  class FrameQueue {
    const capacity: nat
    const frameSize: nat
    const slotCount: nat
    const storage: array<byte>
    const durations: array<int>
    const lengths: array<nat>
    var head: nat
    var tail: nat
    var load: nat
    var closed: bool

    ghost var contents: seq<FrameData>  // queued, oldest first
    ghost var taken: seq<FrameData>     // handed out by Get, in order
    ghost var accepted: seq<FrameData>  // taken in by Put, in order

    /** Slot i holds the frame f. */
    ghost predicate Holds(i: nat, f: FrameData)
      reads storage, durations, lengths
    {
      && i < durations.Length && i < lengths.Length && |f.bytes| <= frameSize
      && i * frameSize + frameSize <= storage.Length
      && durations[i] == f.duration && lengths[i] == |f.bytes|
      && storage[i * frameSize..i * frameSize + |f.bytes|] == f.bytes
    }

    /** The slot after the last Get's: the spare one keeps the frame the consumer
        may still be reading. */
    ghost predicate Valid()
      reads this, storage, durations, lengths
    {
      && capacity > 0 && slotCount == capacity + 1
      && storage.Length == slotCount * frameSize && durations.Length == lengths.Length == slotCount
      && head < slotCount && load <= capacity && tail == Wrap(head, load, slotCount)
      && |contents| == load
      && accepted == taken + contents
      && (forall k :: 0 <= k < load ==> Holds(Wrap(head, k, slotCount), contents[k]))
      && (taken != [] ==> Holds(Wrap(head, capacity, slotCount), taken[|taken| - 1]))
    }

    constructor (capacity: nat, frameSize: nat)
      ensures Valid() && contents == taken == accepted == [] && !closed
      ensures this.capacity == (if capacity > 1 then capacity else 1) && this.frameSize == frameSize
      ensures fresh(storage) && fresh(durations) && fresh(lengths)
    {
      this.capacity := if capacity > 1 then capacity else 1;
      this.frameSize := frameSize;
      slotCount := (if capacity > 1 then capacity else 1) + 1;
      storage := new byte[((if capacity > 1 then capacity else 1) + 1) * frameSize](_ => 0);
      durations := new int[(if capacity > 1 then capacity else 1) + 1](_ => 0);
      lengths := new nat[(if capacity > 1 then capacity else 1) + 1](_ => 0);
      head, tail, load, closed := 0, 0, 0, false;
      contents, taken, accepted := [], [], [];
    }

    /** std::copy into SlotData(i). */
    method CopyIn(i: nat, data: seq<byte>)
      requires |data| <= frameSize && i * frameSize + frameSize <= storage.Length
      modifies storage
      ensures storage[i * frameSize..i * frameSize + |data|] == data
      ensures forall p :: 0 <= p < storage.Length && !(i * frameSize <= p < i * frameSize + |data|)
                ==> storage[p] == old(storage[p])
    {
      var base := i * frameSize;
      for k := 0 to |data|
        invariant forall p :: 0 <= p < storage.Length && !(base <= p < base + k) ==> storage[p] == old(storage[p])
        invariant forall p :: base <= p < base + k ==> storage[p] == data[p - base]
      {
        storage[base + k] := data[k];
      }
    }

    /** Fills slot i, and no other. */
    method WriteSlot(i: nat, duration: int, data: seq<byte>)
      requires |data| <= frameSize && i < slotCount && durations.Length == lengths.Length == slotCount
      requires storage.Length == slotCount * frameSize
      modifies storage, durations, lengths
      ensures Holds(i, FrameData(duration, data))
      ensures forall j: nat, f :: j != i && old(Holds(j, f)) ==> Holds(j, f)
    {
      SlotsApart(i, i, slotCount, frameSize);
      durations[i] := duration;
      lengths[i] := |data|;
      CopyIn(i, data);
      ghost var was, now := old(storage[..]), storage[..];
      forall j: nat, f | j != i && old(Holds(j, f))
        ensures Holds(j, f)
      {
        SlotKept(was, now, i, |data|, j, |f.bytes|, slotCount, frameSize);
        assert was[j * frameSize..j * frameSize + |f.bytes|] == f.bytes;
      }
    }

    /** Put, once its wait is over: there is room, or the queue is closed. */
    method Put(duration: int, data: seq<byte>) returns (r: PutResult)
      requires Valid() && (|data| <= frameSize ==> closed || load < capacity)
      modifies this`tail, this`load, this`contents, this`accepted, storage, durations, lengths
      ensures Valid()
      ensures r == if |data| > frameSize then TooLong else if closed then Refused else Accepted
      ensures accepted == old(accepted) + (if r == Accepted then [FrameData(duration, data)] else [])
      ensures r != Accepted ==> contents == old(contents) && tail == old(tail) && load == old(load)
    {
      if |data| > frameSize {
        return TooLong;
      }
      if closed {
        return Refused;
      }
      ghost var f, queued := FrameData(duration, data), contents;
      RingPositions(head, load, slotCount);
      WriteSlot(tail, duration, data);
      tail := NextSlot(tail);
      load := load + 1;
      AddOne(taken, queued, f);
      contents := queued + [f];
      accepted := accepted + [f];
      r := Accepted;
    }

    /** TakeLocked, with the lock held and the queue not empty. */
    method TakeLocked() returns (frame: Frame)
      requires Valid() && load > 0
      modifies this`head, this`load, this`contents, this`taken
      ensures Valid()
      ensures taken == old(taken) + [old(contents)[0]] && contents == old(contents)[1..]
      ensures IsLent(frame)
    {
      assert Holds(Wrap(head, 0, slotCount), contents[0]);
      frame := Frame(durations[head], head * frameSize, lengths[head]);
      NextPositions(head, load - 1, slotCount);
      Advance();
    }

    method NextSlot(i: nat) returns (next: nat)
      requires i < slotCount && slotCount > 1
      ensures next == Wrap(i, 1, slotCount)
    {
      WrapIsModulo(i, 1, slotCount);
      next := (i + 1) % slotCount;
    }

    /** Moves on to the next slot; the one left behind becomes the spare one. */
    method Advance()
      requires Valid() && load > 0
      modifies this`head, this`load, this`contents, this`taken
      ensures Valid() && head == Wrap(old(head), 1, slotCount)
      ensures taken == old(taken) + [old(contents)[0]] && contents == old(contents)[1..]
    {
      ghost var first, queued := head, contents;
      TakeOne(taken, queued);
      NextPositions(head, load - 1, slotCount);
      assert Holds(Wrap(first, 0, slotCount), queued[0]);
      head := NextSlot(head);
      load := load - 1;
      taken := taken + [queued[0]];
      contents := queued[1..];
      forall k | 0 <= k < load
        ensures Holds(Wrap(head, k, slotCount), contents[k])
      {
        assert Holds(Wrap(first, k + 1, slotCount), queued[k + 1]);
      }
    }

    /** Get, once its wait is over. Queued frames are drained after Close. */
    method Get() returns (r: Option<Frame>)
      requires Valid() && (closed || load > 0)
      modifies this`head, this`load, this`contents, this`taken
      ensures Valid()
      ensures r == None <==> old(contents) == []
      ensures r == None ==> closed && taken == old(taken) && contents == old(contents) && head == old(head) && load == old(load)
      ensures r.Some? ==> taken == old(taken) + [old(contents)[0]] && contents == old(contents)[1..] && IsLent(r.value)
    {
      r := GetFor();
    }

    /** GetFor, once its wait is over or has timed out. */
    method GetFor() returns (r: Option<Frame>)
      requires Valid()
      modifies this`head, this`load, this`contents, this`taken
      ensures Valid()
      ensures r == None <==> old(contents) == []
      ensures r == None ==> taken == old(taken) && contents == old(contents) && head == old(head) && load == old(load)
      ensures r.Some? ==> taken == old(taken) + [old(contents)[0]] && contents == old(contents)[1..] && IsLent(r.value)
    {
      if load == 0 {
        return None;
      }
      var frame := TakeLocked();
      r := Some(frame);
    }

    method Close()
      requires Valid()
      modifies this`closed
      ensures Valid() && closed
    {
      closed := true;
    }

    /** The span of the frame last taken. */
    ghost predicate IsLent(frame: Frame)
      requires slotCount > capacity
      reads this
    {
      && taken != [] && head < slotCount
      && var f := taken[|taken| - 1];
      frame == Frame(f.duration, Wrap(head, capacity, slotCount) * frameSize, |f.bytes|)
    }

    /** Reading one byte through the span. */
    method Read(frame: Frame, k: nat) returns (b: byte)
      requires Valid() && IsLent(frame) && k < frame.length
      ensures frame.length == |taken[|taken| - 1].bytes| && b == taken[|taken| - 1].bytes[k]
    {
      ghost var i, f := Wrap(head, capacity, slotCount), taken[|taken| - 1];
      assert Holds(i, f);
      assert storage[i * frameSize..i * frameSize + |f.bytes|][k] == f.bytes[k];
      b := storage[frame.offset + k];
    }
  }

  lemma {:induction false} AddOne(taken: seq<FrameData>, queued: seq<FrameData>, f: FrameData)
    ensures taken + queued + [f] == taken + (queued + [f])
  {
  }

  lemma {:induction false} TakeOne(taken: seq<FrameData>, queued: seq<FrameData>)
    requires queued != []
    ensures taken + queued == taken + [queued[0]] + queued[1..]
  {
  }

  /** The slot Put writes is neither queued nor the spare one. */
  lemma {:induction false} RingPositions(head: nat, load: nat, n: nat)
    requires head < n && load + 1 < n
    ensures forall k :: 0 <= k < load ==> Wrap(head, k, n) != Wrap(head, load, n)
    ensures Wrap(head, n - 1, n) != Wrap(head, load, n)
    ensures Wrap(Wrap(head, load, n), 1, n) == Wrap(head, load + 1, n)
  {
  }

  /** Positions seen from the next slot. */
  lemma {:induction false} NextPositions(head: nat, load: nat, n: nat)
    requires head < n && load + 1 < n
    ensures forall k :: 0 <= k <= load ==> Wrap(Wrap(head, 1, n), k, n) == Wrap(head, k + 1, n)
    ensures Wrap(Wrap(head, 1, n), n - 1, n) == head
  {
  }

  /** Slots lie side by side in the storage. */
  lemma {:induction false} SlotsApart(i: nat, j: nat, n: nat, size: nat)
    requires i < n && j < n
    ensures i * size + size <= n * size
    ensures i < j ==> i * size + size <= j * size
  {
    Arithmetic.ProductBound(i + 1, size, n, size);
    assert (i + 1) * size == i * size + size;
    if i < j { Arithmetic.ProductBound(i + 1, size, j, size); }
  }

  /** A slot keeps its bytes while only the beginning of another one changes. */
  lemma {:induction false} SlotKept(was: seq<byte>, now: seq<byte>, i: nat, n: nat, j: nat, m: nat, slots: nat, size: nat)
    requires |was| == |now| == slots * size && i < slots && j < slots && i != j && n <= size && m <= size
    requires i * size + n <= |now|
    requires forall p :: 0 <= p < |was| && !(i * size <= p < i * size + n) ==> now[p] == was[p]
    ensures 0 <= j * size <= j * size + m <= |now| && now[j * size..j * size + m] == was[j * size..j * size + m]
  {
    SlotsApart(j, j, slots, size);
    if j < i { SlotsApart(j, i, slots, size); } else { SlotsApart(i, j, slots, size); }
    assert forall p :: j * size <= p < j * size + m ==> now[p] == was[p];
  }
}
