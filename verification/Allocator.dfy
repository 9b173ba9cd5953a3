/** CBaseAllocator / CMemAllocator: a free list shared by blocking GetBuffer
    callers, with commit, deferred decommit and lazily signalled waiters
    (external/baseclasses/amfilter.cpp and amfilter.h). Each step is one critical
    section, or a wait on the semaphore. */
module Allocator {
  import Arithmetic

  const MAXLONG := 0x7FFF_FFFF

  /** One media sample: the allocation it belongs to, and its slot in it. */
  datatype Sample = Sample(batch: nat, slot: nat)

  datatype Properties = Properties(cBuffers: int, cbBuffer: int, cbAlign: int, cbPrefix: int)

  /** The buffers. `outstanding` are the samples handed out, `batches` counts
      the allocations made. */
  datatype Pool = Pool(free: seq<Sample>, outstanding: set<Sample>, lAllocated: int, hasBuffer: bool,
                       bChanged: bool, props: Properties, batches: nat)

  /** The waiting protocol. `waiting` threads have called SetWaiting and not yet
      returned from the semaphore; `timeouts` counts the AM_GBF_NOWAIT calls
      that called SetWaiting and never waited. */
  datatype Waiters = Waiters(lWaiting: nat, sem: nat, waiting: nat, timeouts: nat)

  /** `selfRefs` are the references the allocator holds on itself. */
  datatype State = State(pool: Pool, w: Waiters, committed: bool, decommitting: bool, selfRefs: int)

  /** What the system grants to one Alloc: the memory block, and how many sample
      objects before memory runs out. */
  datatype Memory = Memory(blockOk: bool, samples: nat)

  datatype HResult =
    | Ok | BadAlign | AlreadyCommitted | BuffersOutstanding | SizeNotSet | OutOfMemory | NotCommitted | Timeout | Wait

  function Start(): State {
    State(Pool([], {}, 0, false, false, Properties(0, 0, 0, 0), 0), Waiters(0, 0, 0, 0), false, false, 0)
  }

  /** The remainder of C++, with the sign of the dividend. */
  function Remainder(n: int, d: int): int
    requires d > 0
  {
    if n >= 0 then n % d else -(-n % d)
  }

  /** CMemAllocator::SetProperties: the size is rounded so that buffer and
      prefix together are aligned. */
  function RoundedSize(p: Properties): int
    requires p.cbAlign > 0
  {
    var lSize := p.cbBuffer + p.cbPrefix;
    var lRemainder := Remainder(lSize, p.cbAlign);
    (if lRemainder != 0 then lSize - lRemainder + p.cbAlign else lSize) - p.cbPrefix
  }

  function SetProperties(s: State, p: Properties, alignOk: bool): (State, HResult) {
    if !alignOk || p.cbAlign <= 0 then (s, BadAlign)
    else if s.committed then (s, AlreadyCommitted)
    else if |s.pool.free| < s.pool.lAllocated then (s, BuffersOutstanding)
    else (s.(pool := s.pool.(props := p.(cbBuffer := RoundedSize(p)), bChanged := true)), Ok)
  }

  /** The size of one slot, as CMemAllocator::Alloc computes it; 0 if it would
      overflow. */
  function SlotSize(p: Properties): nat
    requires p.cBuffers > 0 && p.cbBuffer > 0 && p.cbAlign > 0
  {
    var lAlignedSize := p.cbBuffer + p.cbPrefix;
    if p.cbPrefix < 0 || lAlignedSize > MAXLONG then 0
    else
      var lRemainder := lAlignedSize % p.cbAlign;
      var lNewSize := if lRemainder != 0 then lAlignedSize + p.cbAlign - lRemainder else lAlignedSize;
      if lNewSize > MAXLONG || p.cBuffers * lNewSize > MAXLONG then 0 else lNewSize
  }

  /** n new samples of an allocation, the latest first. */
  function NewSamples(batch: nat, n: nat): (l: seq<Sample>)
    ensures |l| == n && forall i :: 0 <= i < n ==> l[i] == Sample(batch, n - 1 - i)
  {
    if n == 0 then [] else [Sample(batch, n - 1)] + NewSamples(batch, n - 1)
  }

  function ReallyFree(p: Pool): Pool { p.(free := [], lAllocated := 0, hasBuffer := false) }

  /** CMemAllocator::Alloc. */
  function Alloc(p: Pool, m: Memory): (Pool, HResult) {
    if p.props.cBuffers <= 0 || p.props.cbBuffer <= 0 || p.props.cbAlign <= 0 then (p, SizeNotSet)
    else if !p.bChanged then (p, Ok)
    else
      var q := if p.hasBuffer then ReallyFree(p) else p;
      if SlotSize(q.props) == 0 || !m.blockOk then (q, OutOfMemory)
      else
        var n := if m.samples < q.props.cBuffers then m.samples else q.props.cBuffers;
        var r := q.(hasBuffer := true, free := NewSamples(q.batches, n) + q.free, lAllocated := n, batches := q.batches + 1);
        if n < q.props.cBuffers then (r, OutOfMemory) else (r.(bChanged := false), Ok)
  }

  /** NotifySample. */
  function Notify(w: Waiters): Waiters { w.(sem := w.sem + w.lWaiting, lWaiting := 0) }

  function Commit(s: State, m: Memory): (State, HResult) {
    if s.committed then (s, Ok)
    else if s.decommitting then (s.(committed := true, decommitting := false), Ok)
    else
      var (pool, hr) := Alloc(s.pool, m);
      if hr != Ok then (s.(pool := pool), hr)
      else (s.(pool := pool, committed := true, selfRefs := s.selfRefs + 1), Ok)
  }

  function Decommit(s: State): State {
    if !s.committed && !s.decommitting then s
    else
      var s := s.(committed := false, w := Notify(s.w));
      if |s.pool.free| < s.pool.lAllocated then s.(decommitting := true)
      else s.(decommitting := false, selfRefs := s.selfRefs - 1)
  }

  /** One pass of GetBuffer's loop through its critical section. */
  function TryGetBuffer(s: State, noWait: bool): (State, HResult) {
    if !s.committed then (s, NotCommitted)
    else if s.pool.free != [] then
      var head := s.pool.free[0];
      (s.(pool := s.pool.(free := s.pool.free[1..], outstanding := s.pool.outstanding + {head})), Ok)
    else if noWait then (s.(w := s.w.(lWaiting := s.w.lWaiting + 1, timeouts := s.w.timeouts + 1)), Timeout)
    else (s.(w := s.w.(lWaiting := s.w.lWaiting + 1, waiting := s.w.waiting + 1)), Wait)
  }

  function ReleaseBuffer(s: State, x: Sample): State {
    var pool := s.pool.(free := [x] + s.pool.free, outstanding := s.pool.outstanding - {x});
    var s := s.(pool := pool, w := Notify(s.w));
    if s.decommitting && |pool.free| == pool.lAllocated then s.(decommitting := false, selfRefs := s.selfRefs - 1)
    else s
  }

  // ---- Runs ----

  datatype Action =
    | ASetProperties(p: Properties, alignOk: bool)
    | ACommit(m: Memory)
    | ADecommit
    | AGetBuffer(noWait: bool)
    | AWake
    | AReleaseBuffer(x: Sample)

  /** A waiting thread returns when the semaphore has a count; a sample is
      released by whoever holds it. */
  predicate Enabled(s: State, a: Action) {
    (a == AWake ==> s.w.waiting > 0 && s.w.sem > 0) && (a.AReleaseBuffer? ==> a.x in s.pool.outstanding)
  }

  function Step(s: State, a: Action): State
    requires Enabled(s, a)
  {
    match a
    case ASetProperties(p, alignOk) => SetProperties(s, p, alignOk).0
    case ACommit(m) => Commit(s, m).0
    case ADecommit => Decommit(s)
    case AGetBuffer(noWait) => TryGetBuffer(s, noWait).0
    case AWake => s.(w := s.w.(sem := s.w.sem - 1, waiting := s.w.waiting - 1))
    case AReleaseBuffer(x) => ReleaseBuffer(s, x)
  }

  ghost predicate CanStep(s: State, a: Action, t: State) { Enabled(s, a) && t == Step(s, a) }

  ghost predicate IsRun(acts: seq<Action>, ss: seq<State>) {
    && |ss| == |acts| + 1 && ss[0] == Start()
    && forall i :: 0 <= i < |acts| ==> CanStep(ss[i], acts[i], ss[i + 1])
  }

  /** The statement (1) and (2) of the comment in amfilter.h, made exact: the
      calls that would not wait leave their counts behind. */
  predicate WaitInv(s: State) {
    && (s.pool.free != [] || !s.committed ==> s.w.lWaiting == 0)
    && s.w.lWaiting + s.w.sem == s.w.waiting + s.w.timeouts
  }

  /** Free and outstanding samples partition the allocated ones. */
  predicate PoolInv(p: Pool) {
    && (forall i, j :: 0 <= i < j < |p.free| ==> p.free[i] != p.free[j])
    && (forall x <- p.free :: x !in p.outstanding && x.batch + 1 == p.batches)
    && (forall x <- p.outstanding :: x.batch + 1 == p.batches)
    && p.lAllocated == |p.free| + |p.outstanding|
    && (!p.hasBuffer ==> p.lAllocated == 0)
    && (!p.bChanged && p.props.cBuffers > 0 ==> p.hasBuffer && p.lAllocated == p.props.cBuffers)
  }

  predicate LifeInv(s: State) {
    && PoolInv(s.pool)
    && !(s.committed && s.decommitting)
    && (s.decommitting ==> s.pool.outstanding != {})
    && (s.pool.outstanding != {} ==> s.committed || s.decommitting)
    && (s.committed || s.decommitting ==> s.pool.lAllocated == s.pool.props.cBuffers > 0)
    && s.selfRefs == (if s.committed || s.decommitting then 1 else 0)
  }

  lemma {:induction false} AllocKeepsPool(p: Pool, m: Memory)
    requires PoolInv(p) && p.outstanding == {}
    ensures PoolInv(Alloc(p, m).0) && Alloc(p, m).0.outstanding == {}
  {
    assert p.lAllocated == |p.free|;
  }

  lemma {:induction false} StepKeepsWaiters(s: State, a: Action, t: State)
    requires WaitInv(s) && CanStep(s, a, t)
    ensures WaitInv(t)
  {
  }

  lemma {:induction false} StepKeepsLife(s: State, a: Action, t: State)
    requires LifeInv(s) && CanStep(s, a, t)
    ensures LifeInv(t)
  {
    match a
    case ACommit(m) =>
      if !s.committed && !s.decommitting { AllocKeepsPool(s.pool, m); }
    case AGetBuffer(noWait) => TakenKeepsLife(s, noWait);
    case AReleaseBuffer(x) => ReturnedKeepsLife(s, x);
    case _ =>
  }

  lemma {:induction false} TakenKeepsLife(s: State, noWait: bool)
    requires LifeInv(s)
    ensures LifeInv(TryGetBuffer(s, noWait).0)
  {
    assert s.pool.free != [] ==> s.pool.free[0] in s.pool.free;
  }

  lemma {:induction false} ReturnedKeepsLife(s: State, x: Sample)
    requires LifeInv(s) && x in s.pool.outstanding
    ensures LifeInv(ReleaseBuffer(s, x))
  {
    assert s.pool.outstanding == (s.pool.outstanding - {x}) + {x};
  }

  lemma {:induction false} RunKeepsInv(acts: seq<Action>, ss: seq<State>, n: nat)
    requires IsRun(acts, ss) && n <= |acts|
    ensures WaitInv(ss[n]) && LifeInv(ss[n])
  {
    if n > 0 {
      RunKeepsInv(acts, ss, n - 1);
      StepKeepsWaiters(ss[n - 1], acts[n - 1], ss[n]);
      StepKeepsLife(ss[n - 1], acts[n - 1], ss[n]);
    }
  }

  /** No GetBuffer caller stays blocked while a buffer is free or after Decommit:
      the semaphore then has a count for every one of them. */
  lemma {:induction false} NoLostWakeUp(acts: seq<Action>, ss: seq<State>, n: nat)
    requires IsRun(acts, ss) && n <= |acts|
    ensures ss[n].pool.free != [] || !ss[n].committed ==> ss[n].w.sem >= ss[n].w.waiting
  {
    RunKeepsInv(acts, ss, n);
  }

  /** A GetBuffer call that would not wait has come back with nothing. */
  ghost predicate TimedOut(acts: seq<Action>, ss: seq<State>, n: nat)
    requires |ss| == |acts| + 1 && n <= |acts|
  {
    exists i :: 0 <= i < n && FindsNothing(acts[i], true, ss[i])
  }

  /** A GetBuffer call on a committed allocator whose buffers are all out. */
  predicate FindsNothing(a: Action, noWait: bool, s: State) {
    a == AGetBuffer(noWait) && s.committed && s.pool.free == []
  }

  /** The count of the comment is exact if and only if that never happened: such a
      call breaks it for good. */
  lemma {:induction false} ExactCounts(acts: seq<Action>, ss: seq<State>, n: nat)
    requires IsRun(acts, ss) && n <= |acts|
    ensures ss[n].w.lWaiting + ss[n].w.sem == ss[n].w.waiting <==> !TimedOut(acts, ss, n)
  {
    RunKeepsInv(acts, ss, n);
    TimeoutsCount(acts, ss, n);
  }

  lemma {:induction false} TimeoutsCount(acts: seq<Action>, ss: seq<State>, n: nat)
    requires IsRun(acts, ss) && n <= |acts|
    ensures ss[n].w.timeouts > 0 <==> TimedOut(acts, ss, n)
  {
    if n > 0 {
      TimeoutsCount(acts, ss, n - 1);
      assert CanStep(ss[n - 1], acts[n - 1], ss[n]);
      TimeoutStep(ss[n - 1], acts[n - 1], ss[n]);
    }
  }

  lemma {:induction false} TimeoutStep(s: State, a: Action, t: State)
    requires CanStep(s, a, t)
    ensures t.w.timeouts == s.w.timeouts + if FindsNothing(a, true, s) then 1 else 0
  {
  }

  /** One buffer, taken, and then asked for without waiting. */
  lemma {:induction false} CountBroken() returns (acts: seq<Action>, ss: seq<State>)
    ensures IsRun(acts, ss) && |acts| == 4 && acts[2..] == [AGetBuffer(false), AGetBuffer(true)]
    ensures ss[4].w.lWaiting + ss[4].w.sem == 1 && ss[4].w.waiting == 0
  {
    var p, m, x := Properties(1, 16, 1, 0), Memory(true, 1), Sample(0, 0);
    var changed := Pool([], {}, 0, false, true, p, 0);
    var full := Pool([x], {}, 1, true, false, p, 1);
    var w := Waiters(0, 0, 0, 0);
    assert NewSamples(0, 1) == [x];
    assert SlotSize(p) == 16;
    acts := [ASetProperties(p, true), ACommit(m), AGetBuffer(false), AGetBuffer(true)];
    ss := [Start(),
           Start().(pool := changed),
           State(full, w, true, false, 1),
           State(full.(free := [], outstanding := {x}), w, true, false, 1),
           State(full.(free := [], outstanding := {x}), Waiters(1, 0, 0, 1), true, false, 1)];
    assert CanStep(ss[0], acts[0], ss[1]);
    assert CanStep(ss[1], acts[1], ss[2]);
    assert CanStep(ss[2], acts[2], ss[3]);
    assert CanStep(ss[3], acts[3], ss[4]);
  }

  /** Samples are neither duplicated nor lost; the commit reference is held
      exactly while committed or decommitting; and no buffer is out otherwise. */
  lemma {:induction false} Lifecycle(acts: seq<Action>, ss: seq<State>, n: nat)
    requires IsRun(acts, ss) && n <= |acts|
    ensures var s := ss[n];
            && |Elements(s.pool.free)| + |s.pool.outstanding| == s.pool.lAllocated
            && (s.committed || s.decommitting ==> s.pool.lAllocated == s.pool.props.cBuffers)
            && Elements(s.pool.free) !! s.pool.outstanding
            && (s.selfRefs == 1 <==> s.committed != s.decommitting)
            && (s.selfRefs == 0 || s.selfRefs == 1)
            && (s.decommitting ==> s.pool.outstanding != {})
            && (s.pool.outstanding != {} ==> s.selfRefs == 1)
  {
    RunKeepsInv(acts, ss, n);
    DistinctSize(ss[n].pool.free);
  }

  function Elements<T>(l: seq<T>): set<T> { set x | x in l }

  lemma {:induction false} DistinctSize<T>(l: seq<T>)
    requires forall i, j :: 0 <= i < j < |l| ==> l[i] != l[j]
    ensures |Elements(l)| == |l|
  {
    if l != [] {
      DistinctSize(l[1..]);
      assert Elements(l) == Elements(l[1..]) + {l[0]};
      assert l[0] !in l[1..];
    }
  }

  // ---- What the calls amount to ----

  /** The samples handed out and not yet returned, over the actions of a run. */
  function HandedOut(acts: seq<Action>, ss: seq<State>, n: nat): set<Sample>
    requires n <= |acts| <= |ss|
  {
    if n == 0 then {}
    else
      var before, s := HandedOut(acts, ss, n - 1), ss[n - 1];
      match acts[n - 1]
      case AGetBuffer(_) => if s.committed && s.pool.free != [] then before + {s.pool.free[0]} else before
      case AReleaseBuffer(x) => before - {x}
      case _ => before
  }

  /** The threads that found nothing and have not been woken. */
  function Blocked(acts: seq<Action>, ss: seq<State>, n: nat): int
    requires n <= |acts| <= |ss|
  {
    if n == 0 then 0
    else
      Blocked(acts, ss, n - 1)
      + (if FindsNothing(acts[n - 1], false, ss[n - 1]) then 1 else 0) - (if acts[n - 1] == AWake then 1 else 0)
  }

  lemma {:induction false} CallsAgree(acts: seq<Action>, ss: seq<State>, n: nat)
    requires IsRun(acts, ss) && n <= |acts|
    ensures ss[n].pool.outstanding == HandedOut(acts, ss, n) && ss[n].w.waiting == Blocked(acts, ss, n)
  {
    if n > 0 {
      var m := n - 1;
      CallsAgree(acts, ss, m);
      RunKeepsInv(acts, ss, m);
      CallStep(ss[m], acts[m], ss[m + 1]);
    }
  }

  lemma {:induction false} CallStep(s: State, a: Action, t: State)
    requires LifeInv(s) && CanStep(s, a, t)
    ensures t.w.waiting == s.w.waiting + (if FindsNothing(a, false, s) then 1 else 0) - (if a == AWake then 1 else 0)
    ensures t.pool.outstanding == match a
              case AGetBuffer(_) =>
                if s.committed && s.pool.free != [] then s.pool.outstanding + {s.pool.free[0]} else s.pool.outstanding
              case AReleaseBuffer(x) => s.pool.outstanding - {x}
              case _ => s.pool.outstanding
  {
  }

  /** From a Decommit until a Commit succeeds, nothing is handed out: buffers only come
      back. */
  lemma {:induction false} DecommitStops(acts: seq<Action>, ss: seq<State>, i: nat, n: nat)
    requires IsRun(acts, ss) && i < n <= |acts| && acts[i] == ADecommit
    requires forall j :: i < j < n && acts[j].ACommit? ==> !ss[j + 1].committed
    ensures !ss[n].committed && ss[n].pool.outstanding <= ss[i + 1].pool.outstanding
  {
    var m := n - 1;
    RunKeepsInv(acts, ss, m);
    if m > i { DecommitStops(acts, ss, i, m); }
    UncommittedStep(ss[m], acts[m], ss[m + 1]);
  }

  lemma {:induction false} UncommittedStep(s: State, a: Action, t: State)
    requires LifeInv(s) && CanStep(s, a, t)
    ensures a == ADecommit ==> !t.committed && t.pool.outstanding == s.pool.outstanding
    ensures !s.committed && (a.ACommit? ==> !t.committed) ==> !t.committed && t.pool.outstanding <= s.pool.outstanding
  {
  }

  /** Commit succeeds at once on an allocator that is committed or has a decommit
      pending; otherwise exactly if it gets all the buffers agreed on. */
  lemma {:induction false} CommitSucceeds(s: State, m: Memory)
    requires LifeInv(s)
    ensures var (t, hr) := Commit(s, m);
            && (hr == Ok <==> t.committed)
            && (s.committed || s.decommitting ==> hr == Ok && t.pool == s.pool)
            && (hr == Ok ==> t.pool.lAllocated == s.pool.props.cBuffers > 0)
            && (hr != Ok ==> t.selfRefs == s.selfRefs && !t.decommitting)
  {
  }

  /** A pending decommit completes, and gives up the commit reference, exactly
      when the last outstanding buffer comes back. */
  lemma {:induction false} DecommitCompletes(s: State, x: Sample)
    requires LifeInv(s) && s.decommitting && x in s.pool.outstanding
    ensures var t := ReleaseBuffer(s, x);
            && (!t.decommitting <==> s.pool.outstanding == {x})
            && (t.selfRefs == 0 <==> s.pool.outstanding == {x})
            && !t.committed
  {
    assert |s.pool.outstanding - {x}| == |s.pool.outstanding| - 1;
    assert s.pool.outstanding - {x} == {} <==> s.pool.outstanding == {x};
  }

  /** Commit during a pending decommit cancels it: same samples, same reference. */
  lemma {:induction false} CommitCancels(s: State, m: Memory, x: Sample)
    requires LifeInv(s) && s.decommitting && x in s.pool.outstanding
    ensures var t := Commit(s, m).0;
            && t.committed && t.pool == s.pool && t.selfRefs == s.selfRefs == 1
            && ReleaseBuffer(t, x).committed && ReleaseBuffer(t, x).selfRefs == 1
  {
  }

  /** SetProperties gives the least size, at least the requested one, that keeps
      buffer and prefix aligned; Alloc then needs no further rounding. */
  lemma {:induction false} RoundedSizeIsLeast(p: Properties, m: Memory)
    requires p.cbBuffer > 0 && p.cbPrefix >= 0 && p.cbAlign > 0 && p.cBuffers > 0
    ensures var size := RoundedSize(p);
            && p.cbBuffer <= size < p.cbBuffer + p.cbAlign
            && (size + p.cbPrefix) % p.cbAlign == 0
            && SlotSize(p.(cbBuffer := size)) in {0, size + p.cbPrefix}
  {
    var lSize, a := p.cbBuffer + p.cbPrefix, p.cbAlign;
    if lSize % a != 0 {
      var up := lSize - lSize % a + a;
      assert up == a * (lSize / a + 1);
      Arithmetic.QuotientUnique(up, a, lSize / a + 1, 0);
    }
  }

  lemma {:induction false} SlotSizeIsAligned(p: Properties)
    requires p.cBuffers > 0 && p.cbBuffer > 0 && p.cbAlign > 0 && SlotSize(p) > 0
    ensures SlotSize(p) % p.cbAlign == 0 && p.cbPrefix >= 0
    ensures p.cbBuffer + p.cbPrefix <= SlotSize(p) && p.cBuffers * SlotSize(p) <= MAXLONG
  {
    var lSize, a := p.cbBuffer + p.cbPrefix, p.cbAlign;
    if lSize % a != 0 {
      assert SlotSize(p) == a * (lSize / a + 1);
      Arithmetic.QuotientUnique(SlotSize(p), a, lSize / a + 1, 0);
    }
  }

  lemma {:induction false} SideBySide(i: nat, j: nat, n: nat, size: nat, a: nat)
    requires i < j < n && a > 0 && size % a == 0
    ensures i * size + size <= j * size && j * size + size <= n * size && (i * size) % a == 0
  {
    Arithmetic.ProductBound(i + 1, size, j, size);
    Arithmetic.ProductBound(j + 1, size, n, size);
    assert (i + 1) * size == i * size + size && (j + 1) * size == j * size + size;
    var k := size / a;
    assert size == a * k;
    assert i * size == a * (i * k);
    Arithmetic.QuotientUnique(i * size, a, i * k, 0);
  }

  /** The slots of one allocation lie side by side in its block, aligned: their
      memory, prefix included, does not overlap. */
  lemma {:induction false} SlotsAreDisjoint(p: Properties, i: nat, j: nat)
    requires p.cBuffers > 0 && p.cbBuffer > 0 && p.cbAlign > 0 && SlotSize(p) > 0
    requires i < j < p.cBuffers
    ensures var size := SlotSize(p);
            && i * size + p.cbPrefix + p.cbBuffer <= j * size
            && 0 <= i * size && j * size + p.cbPrefix + p.cbBuffer <= MAXLONG
            && (i * size) % p.cbAlign == 0
  {
    SlotSizeIsAligned(p);
    SideBySide(i, j, p.cBuffers, SlotSize(p), p.cbAlign);
  }
}
