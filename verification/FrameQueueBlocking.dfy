/** The blocking side of FrameQueue: one producer, one consumer, any number of
    Close calls, and two condition variables with spurious wake-ups
    (core/FrameQueue.cpp). Notifications come after the lock is released. */
module FrameQueueBlocking {
  /** A side runs, is parked on its condition variable, has been woken and is
      about to look again, or has finished its call but for notify_one. */
  datatype Side = Running | Parked | Woken | Notifying

  /** `closing` Close calls have yet to notify both sides, `closingEmpty` only
      the consumer. */
  datatype State = State(capacity: nat, load: nat, closed: bool, producer: Side, consumer: Side,
                         closing: nat, closingEmpty: nat)

  datatype Action =
    | PutOrPark        // the producer, with the lock: one look at its condition
    | PutNotify
    | GetOrPark        // the consumer
    | GetNotify
    | WakeProducer     // a spurious wake-up
    | WakeConsumer     // a spurious wake-up, or GetFor's timeout
    | GiveUp           // GetFor returns empty-handed
    | Close
    | NotifyNotFull
    | NotifyNotEmpty

  function Start(capacity: nat): State { State(capacity, 0, false, Running, Running, 0, 0) }

  function Wake(x: Side): Side { if x == Parked then Woken else x }

  predicate Enabled(s: State, a: Action) {
    match a
    case PutOrPark => s.producer == Running || s.producer == Woken
    case PutNotify => s.producer == Notifying
    case GetOrPark => s.consumer == Running || s.consumer == Woken
    case GetNotify => s.consumer == Notifying
    case WakeProducer => s.producer == Parked
    case WakeConsumer => s.consumer == Parked
    case GiveUp => s.consumer == Woken && s.load == 0
    case Close => true
    case NotifyNotFull => s.closing > 0
    case NotifyNotEmpty => s.closingEmpty > 0
  }

  function Step(s: State, a: Action): State
    requires Enabled(s, a)
  {
    match a
    case PutOrPark =>
      if s.closed then s.(producer := Running)
      else if s.load < s.capacity then s.(load := s.load + 1, producer := Notifying)
      else s.(producer := Parked)
    case PutNotify => s.(consumer := Wake(s.consumer), producer := Running)
    case GetOrPark =>
      if s.load > 0 then s.(load := s.load - 1, consumer := Notifying)
      else if s.closed then s.(consumer := Running)
      else s.(consumer := Parked)
    case GetNotify => s.(producer := Wake(s.producer), consumer := Running)
    case WakeProducer => s.(producer := Woken)
    case WakeConsumer => s.(consumer := Woken)
    case GiveUp => s.(consumer := Running)
    case Close => s.(closed := true, closing := s.closing + 1)
    case NotifyNotFull =>
      s.(producer := Wake(s.producer), closing := s.closing - 1, closingEmpty := s.closingEmpty + 1)
    case NotifyNotEmpty => s.(consumer := Wake(s.consumer), closingEmpty := s.closingEmpty - 1)
  }

  ghost predicate CanStep(s: State, a: Action, t: State) { Enabled(s, a) && t == Step(s, a) }

  ghost predicate IsRun(capacity: nat, acts: seq<Action>, ss: seq<State>) {
    && capacity > 0 && |ss| == |acts| + 1 && ss[0] == Start(capacity)
    && forall i :: 0 <= i < |acts| ==> CanStep(ss[i], acts[i], ss[i + 1])
  }

  /** Whoever is parked has reason to be, or a notification is on its way. */
  predicate Inv(s: State) {
    && s.load <= s.capacity && s.capacity > 0
    && (s.producer == Parked ==> (s.load == s.capacity && !s.closed) || s.consumer == Notifying || s.closing > 0)
    && (s.consumer == Parked ==>
          (s.load == 0 && !s.closed) || s.producer == Notifying || s.closing > 0 || s.closingEmpty > 0)
    && (s.producer == Parked && s.closed ==> s.closing > 0)
    && (s.consumer == Parked && s.closed ==> s.closing > 0 || s.closingEmpty > 0)
  }

  lemma {:induction false} StepKeepsInv(s: State, a: Action, t: State)
    requires Inv(s) && CanStep(s, a, t)
    ensures Inv(t)
  {
  }

  lemma {:induction false} RunKeepsInv(capacity: nat, acts: seq<Action>, ss: seq<State>, n: nat)
    requires IsRun(capacity, acts, ss) && n <= |acts|
    ensures Inv(ss[n])
  {
    if n > 0 {
      RunKeepsInv(capacity, acts, ss, n - 1);
      StepKeepsInv(ss[n - 1], acts[n - 1], ss[n]);
    }
  }

  /** On every run: producer and consumer are never both blocked, unless a Close
      call is just about to wake them; once the Close calls have notified, nobody is
      blocked; and a blocked side's condition is false, or the other side is about
      to notify it. */
  lemma {:induction false} NoDeadlock(capacity: nat, acts: seq<Action>, ss: seq<State>, n: nat)
    requires IsRun(capacity, acts, ss) && n <= |acts|
    ensures var s := ss[n];
            && (s.producer == Parked && s.consumer == Parked ==> s.closing > 0 || s.closingEmpty > 0)
            && (s.closed && s.closing == 0 ==> s.producer != Parked)
            && (s.closed && s.closing == s.closingEmpty == 0 ==> s.consumer != Parked)
            && (s.producer == Parked && s.closing == 0 && s.consumer != Notifying ==> s.load == s.capacity)
            && (s.consumer == Parked && s.closing == s.closingEmpty == 0 && s.producer != Notifying ==> s.load == 0)
  {
    RunKeepsInv(capacity, acts, ss, n);
  }

  /** The frames put, and those taken, by the first n actions. */
  function Puts(acts: seq<Action>, ss: seq<State>, n: nat): nat
    requires n <= |acts| <= |ss|
  {
    if n == 0 then 0
    else
      var s := ss[n - 1];
      Puts(acts, ss, n - 1) + if acts[n - 1] == PutOrPark && !s.closed && s.load < s.capacity then 1 else 0
  }

  function Gets(acts: seq<Action>, ss: seq<State>, n: nat): nat
    requires n <= |acts| <= |ss|
  {
    if n == 0 then 0 else Gets(acts, ss, n - 1) + if acts[n - 1] == GetOrPark && ss[n - 1].load > 0 then 1 else 0
  }

  /** On every run the load is what was put and not yet taken, and never more than the
      capacity. */
  lemma {:induction false} LoadIsConserved(capacity: nat, acts: seq<Action>, ss: seq<State>, n: nat)
    requires IsRun(capacity, acts, ss) && n <= |acts|
    ensures ss[n].load == Puts(acts, ss, n) - Gets(acts, ss, n) && ss[n].load <= ss[n].capacity == capacity
  {
    if n > 0 {
      var m := n - 1;
      LoadIsConserved(capacity, acts, ss, m);
      assert CanStep(ss[m], acts[m], ss[m + 1]);
    }
  }

  /** A side parks exactly if its condition is false, and a notification or a Close
      wakes it. */
  lemma {:induction false} ParksAndWakes(capacity: nat, acts: seq<Action>, ss: seq<State>, n: nat)
    requires IsRun(capacity, acts, ss) && n < |acts|
    ensures acts[n] == PutOrPark ==> (ss[n + 1].producer == Parked <==> !ss[n].closed && ss[n].load == capacity)
    ensures acts[n] == GetOrPark ==> (ss[n + 1].consumer == Parked <==> !ss[n].closed && ss[n].load == 0)
    ensures acts[n] == GetNotify || acts[n] == NotifyNotFull ==> ss[n + 1].producer != Parked
    ensures acts[n] == PutNotify || acts[n] == NotifyNotEmpty ==> ss[n + 1].consumer != Parked
  {
    LoadIsConserved(capacity, acts, ss, n);
    assert CanStep(ss[n], acts[n], ss[n + 1]);
  }

  /** The queue is closed from the first Close on, and never opened again. */
  lemma {:induction false} ClosedByClose(capacity: nat, acts: seq<Action>, ss: seq<State>, n: nat)
    requires IsRun(capacity, acts, ss) && n <= |acts|
    ensures ss[n].closed <==> Close in acts[..n]
  {
    if n > 0 {
      var m := n - 1;
      ClosedByClose(capacity, acts, ss, m);
      assert CanStep(ss[m], acts[m], ss[m + 1]);
      assert acts[..n] == acts[..m] + [acts[m]];
    }
  }
}
