/** The flush barrier: once EndFlush returns, nothing accepted before the
    matching BeginFlush is delivered, wherever the worker was. */
module OutputQueueFlush {
  import opened OutputQueue
  import opened OutputQueueWakeUp
  import opened OutputQueueCalls
  import opened OutputQueueOrder

  /** The flush has its early return coming, because nothing was queued since
      the last one. */
  predicate SkipsFlush(c: Config, f: Flush) { c.flushingOpt && f.flushed }

  /** EndFlush will wait, or is waiting, for the worker. */
  predicate AwaitsWorker(c: Config, f: Flush) {
    f.phase == Waiting || (f.phase == Begun && !SkipsFlush(c, f))
  }

  /** The sides of the handshake. `held` is what the queue still owns. Held
      samples belong to no completed flush; during a flush nothing is accepted;
      the event, once the worker has set it, says that nothing is held, and
      until then the worker has been woken. */
  ghost predicate Handshake(c: Config, f: Flush, held: multiset<Media>, refusing: bool, resetting: bool, lWaiting: nat) {
    && (forall m: Media :: m in held ==> m.epoch >= f.completed)
    && (f.phase == NotFlushing <==> f.completed == f.begun)
    && f.completed <= f.begun
    && (f.phase != NotFlushing ==> refusing && !resetting)
    && (f.flushing <==> f.phase.Begun? || f.phase.Waiting? || f.phase.Waited?)
    && (f.flushed || f.phase.Waited? || f.phase.Unflagged? || f.phase.Reflagged? ==> held == multiset{})
    && (AwaitsWorker(c, f) ==> if f.event then held == multiset{} else lWaiting == 0)
  }

  ghost predicate Shakes(c: Config, s: State) {
    Handshake(c, s.f, Held(s), s.hr != S_OK, ResetInFlight(s), s.lWaiting)
  }

  predicate NoStaleDelivery(s: State) { forall d <- s.h.deliveries :: d.m.epoch >= d.completed }

  ghost predicate FlushInv(c: Config, s: State) {
    && (s.worker.Delivering? ==> s.worker.batch != [])
    && (!s.f.raced ==> Shakes(c, s) && NoStaleDelivery(s))
  }

  lemma {:induction false} ReceiveShakes(c: Config, s: State, ids: seq<nat>)
    requires Shakes(c, s)
    ensures Shakes(c, Receive(c, s, ids))
  {
    if s.hr == S_OK {
      var ms := Wrap(ids, s.f.begun);
      var t := Receive(c, s, ids);
      VisibleSamples(ms);
      ReceiveFields(c, s, ids);
      HeldAfterQueueing(s, t, Samples(ms), ms);
      assert forall m: Media :: m in multiset(ms) ==> m.epoch == s.f.begun;
      Accepting(c, s.f, Held(s), multiset(ms), ResetInFlight(s), ResetInFlight(t), s.lWaiting, t.lWaiting);
    }
  }

  lemma {:induction false} ReceiveFields(c: Config, s: State, ids: seq<nat>)
    requires s.hr == S_OK
    ensures var t := Receive(c, s, ids);
            && t.list == s.list + Samples(Wrap(ids, s.f.begun)) && t.batch == s.batch && t.worker == s.worker
            && t.hr == s.hr && t.f == s.f.(flushed := false)
  {
  }

  lemma {:induction false} Accepting(c: Config, f: Flush, held: multiset<Media>, more: multiset<Media>,
                                     r1: bool, r2: bool, w1: nat, w2: nat)
    requires Handshake(c, f, held, false, r1, w1)
    requires forall m: Media :: m in more ==> m.epoch == f.begun
    ensures Handshake(c, f.(flushed := false), held + more, false, r2, w2)
  {
  }

  /** What a client call outside the flush protocol does to the flags. */
  predicate FlagsMove(f: Flush, hr: HResult, g: Flush) {
    || g == f || (hr == S_OK && g == f.(flushed := false))
    || (f.phase == NotFlushing && g == f.(resetters := f.resetters + 1))
  }

  /** Other client calls outside the flush protocol. */
  lemma {:induction false} QueueShakes(c: Config, s: State, t: State, items: seq<Item>)
    requires Shakes(c, s) && SamplesIn(items) == [] && (s.f.phase != NotFlushing ==> ResetPacket !in items)
    requires t.list == s.list + items && t.batch == s.batch && t.worker == s.worker && t.hr == s.hr
    requires FlagsMove(s.f, s.hr, t.f)
    requires t.lWaiting == 0 || t.lWaiting == s.lWaiting
    ensures Shakes(c, t)
  {
    HeldAfterQueueing(s, t, items, []);
    assert Held(t) == Held(s);
    assert s.f.phase != NotFlushing ==> !ResetInFlight(t);
  }

  lemma {:induction false} BeginFlushShakes(c: Config, s: State)
    requires Shakes(c, s) && s.f.phase == NotFlushing && !BeginFlush(c, s).f.raced
    ensures Shakes(c, BeginFlush(c, s))
  {
    var t := BeginFlush(c, s);
    BeginFields(c, s, t);
    Beginning(c, s.f, t.f, Held(s), s.hr != S_OK, ResetInFlight(s), ResetInFlight(t), s.lWaiting, t.lWaiting);
  }

  lemma {:induction false} BeginFields(c: Config, s: State, t: State)
    requires t == BeginFlush(c, s) && !t.f.raced
    ensures Held(t) == Held(s) && t.hr != S_OK && !ResetInFlight(t)
    ensures t.f == s.f.(flushing := true, begun := s.f.begun + 1, phase := Begun, event := t.f.event)
    ensures SkipsFlush(c, s.f) || (!t.f.event && t.lWaiting == 0)
  {
  }

  lemma {:induction false} Beginning(c: Config, f: Flush, g: Flush, held: multiset<Media>, refusing: bool,
                                     r1: bool, r2: bool, w1: nat, w2: nat)
    requires Handshake(c, f, held, refusing, r1, w1) && f.phase == NotFlushing && !r2
    requires g == f.(flushing := true, begun := f.begun + 1, phase := Begun, event := g.event)
    requires SkipsFlush(c, f) || (!g.event && w2 == 0)
    ensures Handshake(c, g, held, true, r2, w2)
  {
  }

  /** The steps of EndFlush, a returning Reset, and the destructor. */
  lemma {:induction false} FlushControlShakes(c: Config, s: State, a: Action, t: State)
    requires Shakes(c, s) && Paired(s.list) && CanStep(c, s, a, t)
    requires a.AEndFlush? || a.AFlushWaited? || a.AClearFlushing? || a.ASetFlushed? || a.AClearResult?
          || a.AResetDone? || a.ATerminate?
    ensures Shakes(c, t)
  {
    ControlFields(c, s, a, t);
    ControlHandshake(c, s.f, Held(s), s.hr != S_OK, t.hr != S_OK, ResetInFlight(s), ResetInFlight(t),
                     s.lWaiting, t.lWaiting, a);
  }

  /** What these steps leave alone, and what they do to the flags. */
  lemma {:induction false} ControlFields(c: Config, s: State, a: Action, t: State)
    requires Paired(s.list) && CanStep(c, s, a, t)
    requires a.AEndFlush? || a.AFlushWaited? || a.AClearFlushing? || a.ASetFlushed? || a.AClearResult?
          || a.AResetDone? || a.ATerminate?
    ensures Held(t) == Held(s) && (ResetInFlight(t) ==> ResetInFlight(s))
    ensures t.lWaiting == 0 || t.lWaiting == s.lWaiting
    ensures t.f == ControlStep(c, s.f, a)
    ensures s.hr != S_OK ==> t.hr != S_OK || t.f.phase == NotFlushing
    ensures ControlEnabled(s.f, ResetInFlight(s), a)
  {
  }

  predicate ControlEnabled(f: Flush, resetting: bool, a: Action) {
    match a
    case AEndFlush => f.phase == Begun
    case AFlushWaited => f.phase == Waiting && f.event
    case AClearFlushing => f.phase == Waited
    case ASetFlushed => f.phase == Unflagged
    case AClearResult => f.phase == Reflagged
    case AResetDone => f.resetters > 0 && resetting
    case ATerminate => true
    case _ => false
  }

  lemma {:induction false} ControlHandshake(c: Config, f: Flush, held: multiset<Media>, refusing1: bool, refusing2: bool,
                                            r1: bool, r2: bool, w1: nat, w2: nat, a: Action)
    requires Handshake(c, f, held, refusing1, r1, w1) && ControlEnabled(f, r1, a)
    requires (r2 ==> r1) && (w2 == 0 || w2 == w1) && (refusing1 ==> refusing2 || ControlStep(c, f, a).phase == NotFlushing)
    ensures Handshake(c, ControlStep(c, f, a), held, refusing2, r2, w2)
  {
  }

  function ControlStep(c: Config, f: Flush, a: Action): Flush {
    match a
    case AEndFlush =>
      if SkipsFlush(c, f) then f.(flushing := false, phase := NotFlushing, completed := f.begun) else f.(phase := Waiting)
    case AFlushWaited => f.(phase := Waited, event := false)
    case AClearFlushing => f.(phase := Unflagged, flushing := false)
    case ASetFlushed => f.(phase := Reflagged, flushed := true)
    case AClearResult => f.(phase := NotFlushing, completed := f.begun)
    case AResetDone => if f.resetters > 0 then f.(resetters := f.resetters - 1, event := false) else f
    case _ => f
  }

  lemma {:induction false} Emptied(c: Config, f: Flush, held: multiset<Media>, refusing: bool,
                                   r1: bool, r2: bool, w1: nat, w2: nat)
    requires Handshake(c, f, held, refusing, r1, w1) && f.flushing && (r2 ==> r1)
    ensures Handshake(c, f.(event := true), multiset{}, refusing, r2, w2)
  {
  }

  lemma {:induction false} Fewer(c: Config, f: Flush, held1: multiset<Media>, held2: multiset<Media>,
                                 refusing1: bool, refusing2: bool, r1: bool, r2: bool, w1: nat, w2: nat)
    requires Handshake(c, f, held1, refusing1, r1, w1)
    requires held2 <= held1 && (refusing1 ==> refusing2) && (r2 ==> r1) && (f.flushing ==> w1 == w2)
    ensures Handshake(c, f, held2, refusing2, r2, w2)
  {
  }

  lemma {:induction false} FreeingTakeShakes(c: Config, s: State)
    requires Shakes(c, s) && Paired(s.list) && s.worker == Top && (s.f.flushing || s.terminate)
    ensures Shakes(c, Take(c, s))
  {
    var t := Take(c, s);
    FreedByTaking(c, s);
    FreedFields(c, s, t);
    FreedShakes(c, s, t);
  }

  lemma {:induction false} FreedFields(c: Config, s: State, t: State)
    requires Paired(s.list) && s.worker == Top && (s.f.flushing || s.terminate) && t == Take(c, s)
    ensures t.hr == s.hr && (ResetInFlight(t) ==> ResetInFlight(s))
    ensures if s.terminate then t.f == s.f && t.lWaiting == s.lWaiting else t.f == s.f.(event := true)
  {
  }

  lemma {:induction false} FreedShakes(c: Config, s: State, t: State)
    requires Shakes(c, s) && (s.f.flushing || s.terminate)
    requires Held(t) == multiset{} && t.hr == s.hr && (ResetInFlight(t) ==> ResetInFlight(s))
    requires if s.terminate then t.f == s.f && t.lWaiting == s.lWaiting else t.f == s.f.(event := true)
    ensures Shakes(c, t)
  {
    if s.terminate {
      Fewer(c, s.f, Held(s), Held(t), s.hr != S_OK, t.hr != S_OK, ResetInFlight(s), ResetInFlight(t),
            s.lWaiting, t.lWaiting);
    } else {
      Emptied(c, s.f, Held(s), s.hr != S_OK, ResetInFlight(s), ResetInFlight(t), s.lWaiting, t.lWaiting);
    }
  }

  lemma {:induction false} TakeShakes(c: Config, s: State)
    requires Shakes(c, s) && Paired(s.list) && s.worker == Top && !s.f.flushing && !s.terminate
    ensures Shakes(c, Take(c, s))
  {
    var t := Take(c, s);
    HeldAfterTaking(c, s);
    if !ResetInFlight(s) { CollectKeepsResets(c, s.list, s.batch); }
    Fewer(c, s.f, Held(s), Held(t), s.hr != S_OK, t.hr != S_OK, ResetInFlight(s), ResetInFlight(t),
          s.lWaiting, t.lWaiting);
  }

  /** What the worker's other steps leave alone. */
  lemma {:induction false} WorkerFields(c: Config, s: State, a: Action, t: State)
    requires Paired(s.list) && CanStep(c, s, a, t)
    requires a.WWake? || a.WBeginSend? || a.WEndSend? || a.WRelease?
    ensures t.list == s.list && t.batch == s.batch && t.f == s.f && t.lWaiting == s.lWaiting
    ensures s.hr != S_OK ==> t.hr != S_OK
    ensures WorkerBatch(t.worker) == WorkerBatch(s.worker) || WorkerBatch(t.worker) == []
    ensures WorkerControl(t.worker) == WorkerControl(s.worker)
  {
  }

  lemma {:induction false} WorkerShakes(c: Config, s: State, t: State)
    requires Shakes(c, s)
    requires t.list == s.list && t.batch == s.batch && t.f == s.f && t.lWaiting == s.lWaiting
    requires s.hr != S_OK ==> t.hr != S_OK
    requires WorkerBatch(t.worker) == WorkerBatch(s.worker) || WorkerBatch(t.worker) == []
    requires WorkerControl(t.worker) == WorkerControl(s.worker) || WorkerControl(t.worker) == NoControl
    ensures Shakes(c, t)
  {
    Fewer(c, s.f, Held(s), Held(t), s.hr != S_OK, t.hr != S_OK, ResetInFlight(s), ResetInFlight(t),
          s.lWaiting, t.lWaiting);
  }

  lemma {:induction false} ResetShakes(c: Config, s: State)
    requires Shakes(c, s) && s.worker == Controlling(DoReset)
    ensures Shakes(c, ActOnControl(s))
  {
    assert ResetInFlight(s) && s.f.phase == NotFlushing;
    assert Held(ActOnControl(s)) == Held(s);
  }

  lemma {:induction false} ControlShakes(c: Config, s: State)
    requires Shakes(c, s) && s.worker.Controlling?
    ensures Shakes(c, ActOnControl(s))
  {
    if s.worker.ctl == DoReset { ResetShakes(c, s); } else { WorkerShakes(c, s, ActOnControl(s)); }
  }

  /** What the other client calls do. */
  lemma {:induction false} ClientFields(c: Config, s: State, a: Action, t: State)
    requires Paired(s.list) && CanStep(c, s, a, t) && !t.f.raced
    requires a.AEos? || a.ANewSegment? || a.ASendAnyway? || a.AReset?
    ensures t == s || t.list == s.list + NewItems(a)
    ensures t.batch == s.batch && t.worker == s.worker && t.hr == s.hr && (t.lWaiting == 0 || t.lWaiting == s.lWaiting)
    ensures FlagsMove(s.f, s.hr, t.f)
    ensures s.f.phase != NotFlushing ==> ResetPacket !in NewItems(a)
  {
  }

  lemma {:induction false} ClientShakes(c: Config, s: State, a: Action, t: State)
    requires Shakes(c, s) && Paired(s.list) && CanStep(c, s, a, t) && !t.f.raced
    requires a.AEos? || a.ANewSegment? || a.ASendAnyway? || a.AReset?
    ensures Shakes(c, t)
  {
    ClientFields(c, s, a, t);
    NoSamples(NewItems(a));
    if t != s { QueueShakes(c, s, t, NewItems(a)); }
  }

  lemma {:induction false} StepShakes(c: Config, s: State, a: Action, t: State)
    requires Shakes(c, s) && Paired(s.list) && CanStep(c, s, a, t) && !t.f.raced
    ensures Shakes(c, t)
  {
    match a
    case AReceive(ids) => ReceiveShakes(c, s, ids);
    case AEos => ClientShakes(c, s, a, t);
    case ANewSegment(_, _) => ClientShakes(c, s, a, t);
    case ASendAnyway => ClientShakes(c, s, a, t);
    case AReset => ClientShakes(c, s, a, t);
    case WTake => if s.f.flushing || s.terminate { FreeingTakeShakes(c, s); } else { TakeShakes(c, s); }
    case ABeginFlush => BeginFlushShakes(c, s);
    case WControl => ControlShakes(c, s);
    case _ =>
      if a.WWake? || a.WBeginSend? || a.WEndSend? || a.WRelease? {
        WorkerFields(c, s, a, t);
        WorkerShakes(c, s, t);
      } else {
        FlushControlShakes(c, s, a, t);
      }
  }

  // ---- Deliveries ----

  lemma {:induction false} LoggedEpochs(ms: seq<Media>, completed: nat)
    requires forall m <- ms :: m.epoch >= completed
    ensures forall d <- LogDeliveries(ms, completed) :: d.m.epoch >= d.completed == completed
  {
    if ms != [] { LoggedEpochs(ms[1..], completed); }
  }

  lemma {:induction false} SendIsFresh(c: Config, s: State)
    requires Shakes(c, s) && NoStaleDelivery(s) && s.worker.Sending?
    ensures NoStaleDelivery(BeginSend(s))
  {
    var b := s.worker.batch;
    forall m <- b
      ensures m.epoch >= s.f.completed
    {
      assert m in multiset(b) && m in Held(s);
    }
    LoggedEpochs(b, s.f.completed);
  }

  /** Only BeginSend delivers, and `raced` is never taken back. */
  lemma {:induction false} OnlySendDelivers(c: Config, s: State, a: Action, t: State)
    requires Paired(s.list) && CanStep(c, s, a, t)
    ensures a.WBeginSend? || t.h.deliveries == s.h.deliveries
    ensures s.f.raced ==> t.f.raced
    ensures t.worker.Delivering? ==> a.WBeginSend? || t.worker == s.worker
  {
    if !WorkerAction(a) { ClientsDeliverNothing(c, s, a, t); }
  }

  lemma {:induction false} ClientsDeliverNothing(c: Config, s: State, a: Action, t: State)
    requires Paired(s.list) && CanStep(c, s, a, t) && !WorkerAction(a)
    ensures t.h.deliveries == s.h.deliveries && t.worker == s.worker && (s.f.raced ==> t.f.raced)
  {
  }

  lemma {:induction false} StepKeepsFlushInv(c: Config, s: State, a: Action, t: State)
    requires FlushInv(c, s) && Paired(s.list) && CanStep(c, s, a, t)
    ensures FlushInv(c, t)
  {
    OnlySendDelivers(c, s, a, t);
    if !t.f.raced {
      StepShakes(c, s, a, t);
      if a.WBeginSend? { SendIsFresh(c, s); }
    }
  }

  lemma {:induction false} RunKeepsFlushInv(c: Config, acts: seq<Action>, ss: seq<State>, n: nat)
    requires IsRun(c, acts, ss) && n <= |acts|
    ensures FlushInv(c, ss[n])
  {
    if n > 0 {
      RunKeepsFlushInv(c, acts, ss, n - 1);
      RunKeepsInv(c, acts, ss, n - 1);
      StepKeepsFlushInv(c, ss[n - 1], acts[n - 1], ss[n]);
    }
  }

  /** The flush barrier, on every run with no Reset in flight during a flush: at
      each delivery, the sample was accepted after the BeginFlush of the last
      flush completed by then. A delivery that is still going on when EndFlush
      returns cannot exist either. */
  lemma {:induction false} FlushBarrier(c: Config, acts: seq<Action>, ss: seq<State>, n: nat)
    requires IsRun(c, acts, ss) && n <= |acts| && !ResetMeetsFlush(acts, ss, n)
    ensures forall d <- ss[n].h.deliveries :: d.m.epoch >= d.completed
    ensures forall m <- WorkerBatch(ss[n].worker) :: m.epoch >= FlushesDone(c, acts, ss, n)
  {
    RacedMeans(c, acts, ss, n);
    RunKeepsFlushInv(c, acts, ss, n);
    BooksAgree(c, acts, ss, n);
    forall m <- WorkerBatch(ss[n].worker)
      ensures m.epoch >= ss[n].f.completed
    {
      assert m in multiset(WorkerBatch(ss[n].worker)) && m in Held(ss[n]);
    }
  }

  /** EndFlush never waits for a worker that sleeps: until the event is set, the
      worker is running or has been signalled. */
  lemma {:induction false} FlushDoesNotHang(c: Config, acts: seq<Action>, ss: seq<State>, n: nat)
    requires IsRun(c, acts, ss) && n <= |acts| && !ResetMeetsFlush(acts, ss, n)
    ensures ss[n].f.phase == Waiting && !ss[n].f.event ==> !(ss[n].worker == Parked && ss[n].sem == 0)
  {
    RacedMeans(c, acts, ss, n);
    RunKeepsFlushInv(c, acts, ss, n);
    RunKeepsInv(c, acts, ss, n);
  }

  /** The worker's assertions around ReceiveMultiple: it never delivers while the
      queue counts as flushed. */
  lemma {:induction false} NeverDeliversWhenFlushed(c: Config, acts: seq<Action>, ss: seq<State>, n: nat)
    requires IsRun(c, acts, ss) && n <= |acts| && !ResetMeetsFlush(acts, ss, n)
    ensures ss[n].worker.Delivering? ==> !ss[n].f.flushed
  {
    RacedMeans(c, acts, ss, n);
    RunKeepsFlushInv(c, acts, ss, n);
    var b := WorkerBatch(ss[n].worker);
    if b != [] {
      assert b[0] in multiset(b) && b[0] in Held(ss[n]);
    }
  }

  // ---- A Reset that meets a flush ----

  /** Part of a run. */
  ghost predicate IsStretch(c: Config, acts: seq<Action>, ss: seq<State>) {
    |ss| == |acts| + 1 && forall i :: 0 <= i < |acts| ==> CanStep(c, ss[i], acts[i], ss[i + 1])
  }

  lemma {:induction false} Longer(c: Config, acts1: seq<Action>, ss1: seq<State>, acts2: seq<Action>, ss2: seq<State>)
    returns (acts: seq<Action>, ss: seq<State>)
    requires IsStretch(c, acts1, ss1) && IsStretch(c, acts2, ss2) && ss1[|acts1|] == ss2[0]
    ensures IsStretch(c, acts, ss) && acts == acts1 + acts2
    ensures ss[|acts|] == ss2[|acts2|] && forall i :: 0 <= i <= |acts1| ==> ss[i] == ss1[i]
  {
    acts, ss := acts1 + acts2, ss1 + ss2[1..];
    forall i | 0 <= i < |acts|
      ensures CanStep(c, ss[i], acts[i], ss[i + 1])
    {
      if i < |acts1| {
        assert CanStep(c, ss1[i], acts1[i], ss1[i + 1]);
      } else {
        var j := i - |acts1|;
        assert CanStep(c, ss2[j], acts2[j], ss2[j + 1]) && ss[i] == ss2[j];
      }
    }
  }

  /** A Reset, and a sample behind it. */
  lemma {:induction false} QueuesBoth(c: Config) returns (ss: seq<State>, s: State)
    ensures IsStretch(c, [AReset, AReceive([7])], ss) && ss[0] == Start() && ss[2] == s
    ensures s.list == [ResetPacket, Sample(Media(7, 0))] && s.batch == [] && s.worker == Top && !s.terminate
    ensures s.hr == S_OK && s.f == Flush(false, false, false, NotFlushing, 1, 0, 0, false)
  {
    var s1 := Reset(Start());
    assert s1.list == [ResetPacket];
    assert Wrap([7], 0) == [Media(7, 0)];
    assert Samples([Media(7, 0)]) == [Sample(Media(7, 0))];
    s := Receive(c, s1, [7]);
    ss := [Start(), s1, s];
  }

  /** The worker takes a reset packet that comes first. */
  lemma {:induction false} TakesReset(c: Config, s: State, rest: seq<Item>) returns (ss: seq<State>, t: State)
    requires s.list == [ResetPacket] + rest && Paired(rest) && s.batch == []
    requires s.worker == Top && !s.terminate && !s.f.flushing
    ensures IsStretch(c, [WTake, WBeginSend], ss) && ss[0] == s && ss[2] == t
    ensures t == s.(list := rest, worker := Controlling(DoReset))
  {
    assert s.list[1..] == rest;
    var s1 := s.(list := rest, worker := Sending([], DoReset));
    t := s.(list := rest, worker := Controlling(DoReset));
    ss := [s, s1, t];
  }

  /** With the event set, EndFlush runs to its end, whatever the worker has done. */
  lemma {:induction false} FlushConcludes(c: Config, s: State) returns (ss: seq<State>, t: State)
    requires Paired(s.list) && s.f.phase == Waiting && s.f.event
    ensures IsStretch(c, [AFlushWaited, AClearFlushing, ASetFlushed, AClearResult], ss) && ss[0] == s && ss[4] == t
    ensures t.list == s.list && t.batch == s.batch && t.worker == s.worker && t.terminate == s.terminate
    ensures t.hr == S_OK && !t.f.flushing && t.f.completed == s.f.begun
  {
    var f := s.f.(phase := Waited, event := false);
    var s1 := s.(f := f);
    var s2 := s1.(f := f.(phase := Unflagged, flushing := false));
    var s3 := s2.(f := f.(phase := Reflagged, flushing := false, flushed := true));
    t := s3.(f := f.(phase := NotFlushing, flushing := false, flushed := true, completed := f.begun), hr := S_OK);
    ss := [s, s1, s2, s3, t];
  }

  lemma {:induction false} SampleTaken(c: Config, s: State, m: Media)
    requires c.Valid() && !c.batchExact && s.list == [Sample(m)] && s.batch == []
    requires s.worker == Top && !s.terminate && !s.f.flushing
    ensures Take(c, s) == s.(list := [], worker := Sending([m], NoControl))
  {
    assert s.list[1..] == [] && s.batch + [m] == [m];
    assert Collect(c, [], [m]) == Batch([m], NoControl, []);
  }

  lemma {:induction false} TakesSample(c: Config, s: State, m: Media)
    requires c.Valid() && !c.batchExact && s.list == [Sample(m)] && s.batch == []
    requires s.worker == Top && !s.terminate && !s.f.flushing
    ensures IsStretch(c, [WTake], [s, Take(c, s)])
  {
  }

  /** BeginFlush and EndFlush while the worker acts on a Reset. */
  lemma {:induction false} ResetSetsEvent(c: Config, s: State) returns (ss: seq<State>, t: State)
    requires Paired(s.list) && s.worker == Controlling(DoReset) && !s.terminate
    requires s.f == Flush(false, false, false, NotFlushing, 1, 0, 0, false)
    ensures IsStretch(c, [ABeginFlush, AEndFlush, WControl], ss) && ss[0] == s && ss[3] == t
    ensures t.list == s.list && t.batch == s.batch && t.worker == Top && !t.terminate
    ensures t.f.phase == Waiting && t.f.event && t.f.begun == 1
  {
    var s1 := BeginFlush(c, s);
    var s2 := s1.(f := s1.f.(phase := Waiting));
    t := s2.(worker := Top, hr := S_OK, f := s2.f.(event := true));
    ss := [s, s1, s2, t];
  }

  /** The flush meets the Reset. */
  lemma {:induction false} FlushMeetsReset(c: Config, m: Media) returns (acts: seq<Action>, ss: seq<State>)
    requires m == Media(7, 0)
    ensures acts == [AReset, AReceive([7]), WTake, WBeginSend, ABeginFlush, AEndFlush, WControl]
    ensures IsStretch(c, acts, ss) && ss[0] == Start() && ss[4].worker == Controlling(DoReset)
    ensures var t := ss[7];
            && t.list == [Sample(m)] && t.batch == [] && t.worker == Top && !t.terminate
            && t.f.phase == Waiting && t.f.event && t.f.begun == 1
  {
    var first, s2 := QueuesBoth(c);
    var next, s4 := TakesReset(c, s2, [Sample(m)]);
    var during, s7 := ResetSetsEvent(c, s4);
    acts, ss := Longer(c, [AReset, AReceive([7])], first, [WTake, WBeginSend], next);
    acts, ss := Longer(c, acts, ss, [ABeginFlush, AEndFlush, WControl], during);
  }

  /** And the flush ends with the sample in hand. */
  lemma {:induction false} FlushEndsEarly(c: Config, s: State, m: Media) returns (acts: seq<Action>, ss: seq<State>)
    requires c.Valid() && !c.batchExact && s.list == [Sample(m)] && s.batch == [] && s.worker == Top && !s.terminate
    requires s.f.phase == Waiting && s.f.event && s.f.begun == 1
    ensures acts == [AFlushWaited, AClearFlushing, ASetFlushed, AClearResult, WTake]
    ensures IsStretch(c, acts, ss) && ss[0] == s
    ensures WorkerBatch(ss[5].worker) == [m] && ss[5].hr == S_OK && ss[5].f.completed == 1
  {
    var after, s4 := FlushConcludes(c, s);
    SampleTaken(c, s4, m);
    TakesSample(c, s4, m);
    acts, ss := Longer(c, [AFlushWaited, AClearFlushing, ASetFlushed, AClearResult], after, [WTake], [s4, Take(c, s4)]);
  }

  /** A Reset that meets a flush does defeat it, without exact batching: EndFlush is let
      through by the Reset's event, and a sample from before BeginFlush is delivered
      after it has returned. */
  lemma {:induction false} ResetDefeatsFlush(c: Config) returns (acts: seq<Action>, ss: seq<State>)
    requires c.Valid() && !c.batchExact
    ensures IsRun(c, acts, ss) && |acts| == 12 && ResetMeetsFlush(acts, ss, 12)
    ensures acts == [AReset, AReceive([7]), WTake, WBeginSend, ABeginFlush, AEndFlush, WControl,
                     AFlushWaited, AClearFlushing, ASetFlushed, AClearResult, WTake]
    ensures FlushesDone(c, acts, ss, 12) == 1 && WorkerBatch(ss[12].worker) == [Media(7, 0)] && ss[12].hr == S_OK
  {
    var m := Media(7, 0);
    var before, ss1 := FlushMeetsReset(c, m);
    var after, ss2 := FlushEndsEarly(c, ss1[7], m);
    acts, ss := Longer(c, before, ss1, after, ss2);
    assert Meets(acts[4], ss[4]);
    BooksAgree(c, acts, ss, 12);
  }
}
