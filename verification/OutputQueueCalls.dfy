/** What the calls on the queue amount to, over the actions of a run: samples handed
    in, events accepted, flushes begun and completed. The queue's own books agree. */
module OutputQueueCalls {
  import opened OutputQueue
  import opened OutputQueueWakeUp

  /** Flushes begun by the first n actions. */
  function FlushesBegun(acts: seq<Action>, n: nat): nat
    requires n <= |acts|
  {
    if n == 0 then 0 else FlushesBegun(acts, n - 1) + if acts[n - 1] == ABeginFlush then 1 else 0
  }

  /** EndFlush returns: at once, if nothing was queued since the last flush, or after
      its last write. */
  predicate ReturnsFromFlush(c: Config, s: State, a: Action) {
    a == AClearResult || (a == AEndFlush && c.flushingOpt && s.f.flushed)
  }

  /** The flushes that were begun before the last return of EndFlush. */
  function FlushesDone(c: Config, acts: seq<Action>, ss: seq<State>, n: nat): nat
    requires n <= |acts| <= |ss|
  {
    if n == 0 then 0
    else if ReturnsFromFlush(c, ss[n - 1], acts[n - 1]) then FlushesBegun(acts, n - 1)
    else FlushesDone(c, acts, ss, n - 1)
  }

  /** The sample references handed in, whether they were accepted or not. */
  function Offered(acts: seq<Action>, n: nat): multiset<Media>
    requires n <= |acts|
  {
    if n == 0 then multiset{}
    else
      Offered(acts, n - 1)
      + if acts[n - 1].AReceive? then multiset(Wrap(acts[n - 1].ids, FlushesBegun(acts, n - 1))) else multiset{}
  }

  /** The events of the calls made while the queue accepts, in order. */
  function AcceptedEvents(acts: seq<Action>, ss: seq<State>, n: nat): seq<Event>
    requires n <= |acts| <= |ss|
  {
    if n == 0 then [] else AcceptedEvents(acts, ss, n - 1) + CallEvents(acts[n - 1], ss[n - 1].hr, FlushesBegun(acts, n - 1))
  }

  function CallEvents(a: Action, hr: HResult, epoch: nat): seq<Event> {
    match a
    case AReceive(ids) => if hr == S_OK then seq(|ids|, i requires 0 <= i < |ids| => Deliver(Media(ids[i], epoch))) else []
    case AEos => if hr == S_OK then [EndOfStream] else []
    case ANewSegment(hrSeen, p) => if hrSeen == S_OK then [NewSegment(p)] else []
    case _ => []
  }

  lemma {:induction false} DeliveriesAt(ms: seq<Media>, i: nat)
    requires i < |ms|
    ensures Deliveries(ms)[i] == Deliver(ms[i])
  {
    if i > 0 { DeliveriesAt(ms[1..], i - 1); }
  }

  lemma {:induction false} DeliveriesOf(ids: seq<nat>, epoch: nat)
    ensures Deliveries(Wrap(ids, epoch)) == seq(|ids|, i requires 0 <= i < |ids| => Deliver(Media(ids[i], epoch)))
  {
    forall i | 0 <= i < |ids|
      ensures Deliveries(Wrap(ids, epoch))[i] == Deliver(Media(ids[i], epoch))
    {
      DeliveriesAt(Wrap(ids, epoch), i);
    }
  }

  /** On every run the queue's books say what the calls did. */
  lemma {:induction false} BooksAgree(c: Config, acts: seq<Action>, ss: seq<State>, n: nat)
    requires IsRun(c, acts, ss) && n <= |acts|
    ensures ss[n].f.begun == FlushesBegun(acts, n) && ss[n].f.completed == FlushesDone(c, acts, ss, n)
    ensures ss[n].h.given == Offered(acts, n)
    ensures ss[n].h.accepted == AcceptedEvents(acts, ss, n)
  {
    if n > 0 {
      var m := n - 1;
      BooksAgree(c, acts, ss, m);
      RunKeepsInv(c, acts, ss, m);
      if acts[m].AReceive? {
        ReceiveBooks(c, ss[m], acts[m].ids, ss[m + 1]);
      } else {
        OtherBooks(c, ss[m], acts[m], ss[m + 1]);
      }
    }
  }

  lemma {:induction false} ReceiveBooks(c: Config, s: State, ids: seq<nat>, t: State)
    requires t == Receive(c, s, ids)
    ensures t.f.begun == s.f.begun && t.f.completed == s.f.completed
    ensures t.h.given == s.h.given + multiset(Wrap(ids, s.f.begun))
    ensures t.h.accepted == s.h.accepted + CallEvents(AReceive(ids), s.hr, s.f.begun)
  {
    DeliveriesOf(ids, s.f.begun);
    Nothing(s.h.accepted);
  }

  lemma {:induction false} Nothing(events: seq<Event>)
    ensures events + [] == events
  {
  }

  lemma {:induction false} OtherBooks(c: Config, s: State, a: Action, t: State)
    requires Paired(s.list) && CanStep(c, s, a, t) && !a.AReceive?
    ensures t.f.begun == s.f.begun + if a == ABeginFlush then 1 else 0
    ensures t.f.completed == if ReturnsFromFlush(c, s, a) then s.f.begun else s.f.completed
    ensures t.h.given == s.h.given && t.h.accepted == s.h.accepted + CallEvents(a, s.hr, s.f.begun)
  {
    Nothing(s.h.accepted);
    if WorkerAction(a) { WorkerBooks(c, s, a, t); } else { ClientBooks(c, s, a, t); }
  }

  lemma {:induction false} WorkerBooks(c: Config, s: State, a: Action, t: State)
    requires Paired(s.list) && CanStep(c, s, a, t) && WorkerAction(a)
    ensures t.f.begun == s.f.begun && t.f.completed == s.f.completed
    ensures t.h.given == s.h.given && t.h.accepted == s.h.accepted
  {
    if a.WTake? { TakeBooks(c, s, t); }
  }

  lemma {:induction false} TakeBooks(c: Config, s: State, t: State)
    requires Paired(s.list) && CanStep(c, s, WTake, t)
    ensures t.f.begun == s.f.begun && t.f.completed == s.f.completed
    ensures t.h.given == s.h.given && t.h.accepted == s.h.accepted
  {
  }

  lemma {:induction false} ClientBooks(c: Config, s: State, a: Action, t: State)
    requires Paired(s.list) && CanStep(c, s, a, t) && !WorkerAction(a) && !a.AReceive?
    ensures t.f.begun == s.f.begun + if a == ABeginFlush then 1 else 0
    ensures t.f.completed == if ReturnsFromFlush(c, s, a) then s.f.begun else s.f.completed
    ensures t.h.given == s.h.given
    ensures var e := CallEvents(a, s.hr, s.f.begun); t.h.accepted == if e == [] then s.h.accepted else s.h.accepted + e
  {
    if a.AEos? || a.ANewSegment? { CallBooks(c, s, a, t); } else { SilentBooks(c, s, a, t); }
  }

  lemma {:induction false} CallBooks(c: Config, s: State, a: Action, t: State)
    requires Paired(s.list) && CanStep(c, s, a, t) && (a.AEos? || a.ANewSegment?)
    ensures t.f.begun == s.f.begun && t.f.completed == s.f.completed && t.h.given == s.h.given
    ensures a.AEos? ==> t.h.accepted == if s.hr == S_OK then s.h.accepted + [EndOfStream] else s.h.accepted
    ensures a.ANewSegment? ==> t.h.accepted == if a.hrSeen == S_OK then s.h.accepted + [NewSegment(a.p)] else s.h.accepted
  {
  }

  lemma {:induction false} SilentBooks(c: Config, s: State, a: Action, t: State)
    requires Paired(s.list) && CanStep(c, s, a, t) && !WorkerAction(a) && !a.AReceive? && !a.AEos? && !a.ANewSegment?
    ensures t.f.begun == s.f.begun + if a == ABeginFlush then 1 else 0
    ensures t.f.completed == if ReturnsFromFlush(c, s, a) then s.f.begun else s.f.completed
    ensures t.h.given == s.h.given && t.h.accepted == s.h.accepted
  {
    if FlushAction(a) { FlushBooks(c, s, a, t); }
  }

  /** What the flushing thread does after BeginFlush. */
  predicate FlushAction(a: Action) {
    a.AEndFlush? || a.AFlushWaited? || a.AClearFlushing? || a.ASetFlushed? || a.AClearResult?
  }

  lemma {:induction false} FlushBooks(c: Config, s: State, a: Action, t: State)
    requires Paired(s.list) && CanStep(c, s, a, t) && FlushAction(a)
    ensures t.f.begun == s.f.begun && t.h == s.h
    ensures t.f.completed == if ReturnsFromFlush(c, s, a) then s.f.begun else s.f.completed
  {
  }

  // ---- The result code ----

  /** What makes the queue accept again. */
  predicate Reopens(c: Config, s: State, a: Action) {
    ReturnsFromFlush(c, s, a) || (a == WControl && s.worker == Controlling(DoReset))
  }

  /** The first failure sticks: what a downstream pin returned stays until a flush or a
      Reset has gone through, or the destructor runs. */
  lemma {:induction false} FailureSticks(c: Config, acts: seq<Action>, ss: seq<State>, i: nat, n: nat)
    requires IsRun(c, acts, ss) && i < n <= |acts|
    requires acts[i].WEndSend? && ss[i].hr == S_OK
    requires forall j :: i < j < n ==> !Reopens(c, ss[j], acts[j]) && acts[j] != ATerminate
    ensures ss[i + 1].hr == acts[i].hr
    ensures acts[i].hr != S_OK ==> ss[n].hr == acts[i].hr
  {
    var m := n - 1;
    RunKeepsInv(c, acts, ss, m);
    if m == i {
      ResultTaken(c, ss[i], acts[i], ss[i + 1]);
    } else {
      FailureSticks(c, acts, ss, i, m);
      if acts[i].hr != S_OK { ResultKept(c, ss[m], acts[m], ss[m + 1]); }
    }
  }

  lemma {:induction false} ResultTaken(c: Config, s: State, a: Action, t: State)
    requires Paired(s.list) && CanStep(c, s, a, t) && a.WEndSend? && s.hr == S_OK
    ensures t.hr == a.hr
  {
  }

  lemma {:induction false} ResultKept(c: Config, s: State, a: Action, t: State)
    requires Paired(s.list) && CanStep(c, s, a, t) && s.hr != S_OK && !Reopens(c, s, a) && a != ATerminate
    ensures t.hr == s.hr
  {
  }

  /** The flag is up from BeginFlush until EndFlush lowers it. */
  predicate FlagOk(f: Flush) { f.flushing <==> f.phase.Begun? || f.phase.Waiting? || f.phase.Waited? }

  lemma {:induction false} FlagFollowsPhase(c: Config, acts: seq<Action>, ss: seq<State>, n: nat)
    requires IsRun(c, acts, ss) && n <= |acts|
    ensures FlagOk(ss[n].f)
  {
    if n > 0 {
      var m := n - 1;
      FlagFollowsPhase(c, acts, ss, m);
      RunKeepsInv(c, acts, ss, m);
      FlagStep(c, ss[m], acts[m], ss[m + 1]);
    }
  }

  lemma {:induction false} FlagStep(c: Config, s: State, a: Action, t: State)
    requires Paired(s.list) && CanStep(c, s, a, t) && FlagOk(s.f)
    ensures FlagOk(t.f)
  {
  }

  /** A flush refuses everything from BeginFlush on; the queue accepts again when
      EndFlush returns, or a Reset has gone through. */
  lemma {:induction false} FlushRefusesAndReopens(c: Config, acts: seq<Action>, ss: seq<State>, n: nat)
    requires IsRun(c, acts, ss) && n < |acts|
    ensures acts[n] == ABeginFlush ==> ss[n + 1].hr != S_OK && ss[n + 1].f.flushing
    ensures Reopens(c, ss[n], acts[n]) ==> ss[n + 1].hr == S_OK
    ensures ReturnsFromFlush(c, ss[n], acts[n]) ==> !ss[n + 1].f.flushing && ss[n + 1].f.phase == NotFlushing
  {
    RunKeepsInv(c, acts, ss, n);
    FlagFollowsPhase(c, acts, ss, n);
    FlushStep(c, ss[n], acts[n], ss[n + 1]);
  }

  lemma {:induction false} FlushStep(c: Config, s: State, a: Action, t: State)
    requires Paired(s.list) && CanStep(c, s, a, t) && FlagOk(s.f)
    ensures a == ABeginFlush ==> t.hr != S_OK && t.f.flushing
    ensures Reopens(c, s, a) ==> t.hr == S_OK
    ensures ReturnsFromFlush(c, s, a) ==> !t.f.flushing && t.f.phase == NotFlushing
  {
  }

  // ---- Resets and flushes ----

  /** A flush began while a Reset was in flight, or a Reset was called during one. */
  ghost predicate ResetMeetsFlush(acts: seq<Action>, ss: seq<State>, n: nat)
    requires n <= |acts| <= |ss|
  {
    exists i :: 0 <= i < n && Meets(acts[i], ss[i])
  }

  predicate Meets(a: Action, s: State) {
    (a == ABeginFlush && ResetInFlight(s)) || (a == AReset && s.f.phase != NotFlushing)
  }

  lemma {:induction false} RacedMeans(c: Config, acts: seq<Action>, ss: seq<State>, n: nat)
    requires IsRun(c, acts, ss) && n <= |acts|
    ensures ss[n].f.raced <==> ResetMeetsFlush(acts, ss, n)
  {
    if n > 0 {
      var m := n - 1;
      RacedMeans(c, acts, ss, m);
      RunKeepsInv(c, acts, ss, m);
      RacedStep(c, ss[m], acts[m], ss[m + 1]);
    }
  }

  lemma {:induction false} RacedStep(c: Config, s: State, a: Action, t: State)
    requires Paired(s.list) && CanStep(c, s, a, t)
    ensures t.f.raced <==> s.f.raced || Meets(a, s)
  {
    if WorkerAction(a) {
      WorkerRaced(c, s, a, t);
    } else if a != ABeginFlush && a != AReset {
      ClientRaced(c, s, a, t);
    }
  }

  lemma {:induction false} WorkerRaced(c: Config, s: State, a: Action, t: State)
    requires Paired(s.list) && CanStep(c, s, a, t) && WorkerAction(a)
    ensures t.f.raced == s.f.raced
  {
  }

  lemma {:induction false} ClientRaced(c: Config, s: State, a: Action, t: State)
    requires Paired(s.list) && CanStep(c, s, a, t) && !WorkerAction(a) && a != ABeginFlush && a != AReset
    ensures t.f.raced == s.f.raced
  {
  }

  /** While Reset is not called, none is in flight, and none meets a flush. */
  lemma {:induction false} NoResetNoRace(c: Config, acts: seq<Action>, ss: seq<State>, n: nat)
    requires IsRun(c, acts, ss) && n <= |acts|
    requires forall i :: 0 <= i < n ==> acts[i] != AReset
    ensures !ResetInFlight(ss[n]) && !ResetMeetsFlush(acts, ss, n)
  {
    if n > 0 {
      var m := n - 1;
      NoResetNoRace(c, acts, ss, m);
      RunKeepsInv(c, acts, ss, m);
      NoResetStep(c, ss[m], acts[m], ss[m + 1]);
    }
  }

  lemma {:induction false} NoResetStep(c: Config, s: State, a: Action, t: State)
    requires Paired(s.list) && CanStep(c, s, a, t) && a != AReset && !ResetInFlight(s)
    ensures !ResetInFlight(t)
  {
    match a
    case AReceive(ids) => SamplesPaired(Wrap(ids, s.f.begun));
    case WTake =>
      CollectKeepsResets(c, s.list, s.batch);
      CollectKeepsResets(c, [], []);
    case _ => OtherNoReset(c, s, a, t);
  }

  lemma {:induction false} OtherNoReset(c: Config, s: State, a: Action, t: State)
    requires Paired(s.list) && CanStep(c, s, a, t) && a != AReset && !a.AReceive? && !a.WTake? && !ResetInFlight(s)
    ensures !ResetInFlight(t)
  {
  }

  lemma {:induction false} CollectKeepsResets(c: Config, list: seq<Item>, batch: seq<Media>)
    requires Paired(list) && ResetPacket !in list
    ensures match Collect(c, list, batch)
            case Idle(_) => true
            case Batch(_, ctl, rest) => ctl != DoReset && ResetPacket !in rest
    decreases |list|
  {
    if list != [] && (list[0].Sample? || list[0].SendPacket?) {
      CollectKeepsResets(c, list[1..], if list[0].Sample? then batch + [list[0].m] else batch);
    }
  }

  // ---- Where a batch ends ----

  /** Samples, and requests to send while there is nothing to send. */
  predicate Collectable(list: seq<Item>, batch: seq<Media>) {
    forall i :: 0 <= i < |list| ==> list[i].Sample? || (list[i].SendPacket? && batch + SamplesIn(list[..i]) == [])
  }

  /** How the inner loop ends, by what it took from the list: after k items it has
      filled a batch, met a control packet, or come to the end. Nothing before that
      was one, and the batch was not full before. */
  lemma {:induction false} CollectEnds(c: Config, list: seq<Item>, batch: seq<Media>) returns (k: nat)
    requires Paired(list) && c.Valid() && |batch| < c.batchSize
    ensures k <= |list| && Collectable(list[..k], batch)
    ensures var b := batch + SamplesIn(list[..k]);
            match Collect(c, list, batch)
            case Idle(b') => b' == b && k == |list| && |b| < c.batchSize && (c.batchExact || b == [])
            case Batch(b', ctl, rest) =>
              && b' == b && |b| <= c.batchSize
              && (|b| == c.batchSize ==> ctl == NoControl && rest == list[k..])
              && (|b| < c.batchSize ==>
                    if k == |list| then !c.batchExact && b != [] && ctl == NoControl && rest == []
                    else EndsBatch(list, k, ctl, rest) && (list[k].SendPacket? ==> b != []))
    decreases |list|
  {
    k := 0;
    NothingCollected(list, batch);
    if list != [] && (list[0].Sample? || (list[0].SendPacket? && batch == [])) {
      var next := batch + ItemSamples(list[0]);
      if |next| < c.batchSize {
        k := CollectEnds(c, list[1..], next);
        CollectedMore(list, k, batch);
      } else {
        CollectedMore(list, 0, batch);
      }
      k := k + 1;
    }
  }

  lemma {:induction false} NothingCollected(list: seq<Item>, batch: seq<Media>)
    ensures Collectable(list[..0], batch) && batch + SamplesIn(list[..0]) == batch
  {
  }

  /** The control packet at position k, and what is left behind it. */
  predicate EndsBatch(list: seq<Item>, k: nat, ctl: Control, rest: seq<Item>)
    requires k < |list|
  {
    match list[k]
    case SendPacket => ctl == DoSend && rest == list[k + 1..]
    case EosPacket => ctl == DoEos && rest == list[k + 1..]
    case ResetPacket => ctl == DoReset && rest == list[k + 1..]
    case NewSegmentMark => k + 1 < |list| && list[k + 1].SegmentParams? && ctl == DoSegment(list[k + 1].p) && rest == list[k + 2..]
    case _ => false
  }

  lemma {:induction false} CollectedMore(list: seq<Item>, k: nat, batch: seq<Media>)
    requires list != [] && k <= |list| - 1 && Collectable(list[1..][..k], batch + ItemSamples(list[0]))
    requires list[0].Sample? || (list[0].SendPacket? && batch == [])
    ensures Collectable(list[..k + 1], batch)
    ensures batch + SamplesIn(list[..k + 1]) == (batch + ItemSamples(list[0])) + SamplesIn(list[1..][..k])
  {
    var first, more := list[..k + 1], list[1..][..k];
    assert first[1..] == more && first[0] == list[0];
    forall i | 0 <= i < |first|
      ensures first[i].Sample? || (first[i].SendPacket? && batch + SamplesIn(first[..i]) == [])
    {
      if i > 0 {
        assert first[i] == more[i - 1] && first[..i][1..] == more[..i - 1] && first[..i][0] == list[0];
      } else {
        assert first[..0] == [];
      }
    }
  }
}
