/** The queue's structure and its wake-ups, on every run: segment markers stay
    paired with their parameters, and a parked worker has nothing it should do. */
module OutputQueueWakeUp {
  import opened OutputQueue

  /** Nothing is stranded while the worker waits without having been signalled:
      no whole batch in exact mode, nothing at all otherwise. */
  predicate NothingToDo(c: Config, s: State) {
    if c.batchExact then
      |s.batch| + |s.list| < c.batchSize && forall x <- s.list :: x.Sample?
    else
      s.batch == [] && s.list == []
  }

  predicate Inv(c: Config, s: State) {
    && |s.batch| < c.batchSize
    && s.lWaiting + s.sem == (if s.worker == Parked then 1 else 0)
    && (s.lWaiting == 1 ==> NothingToDo(c, s) && !s.terminate)
    && (s.worker == Exited ==> s.terminate && s.list == [] && s.batch == [])
  }

  lemma {:induction false} PairedConcat(a: seq<Item>, b: seq<Item>)
    requires Paired(a) && Paired(b)
    ensures Paired(a + b)
  {
    if a == [] {
      assert a + b == b;
    } else if a[0].NewSegmentMark? {
      PairedConcat(a[2..], b);
      assert (a + b)[2..] == a[2..] + b;
    } else {
      PairedConcat(a[1..], b);
      assert (a + b)[1..] == a[1..] + b;
    }
  }

  lemma {:induction false} SamplesPaired(ms: seq<Media>)
    ensures Paired(Samples(ms)) && forall x <- Samples(ms) :: x.Sample?
  {
    if ms != [] {
      SamplesPaired(ms[1..]);
      assert ([Sample(ms[0])] + Samples(ms[1..]))[1..] == Samples(ms[1..]);
    }
  }

  lemma {:induction false} CollectShape(c: Config, list: seq<Item>, batch: seq<Media>)
    requires Paired(list) && c.Valid() && |batch| < c.batchSize
    ensures match Collect(c, list, batch)
            case Idle(b) => |b| < c.batchSize && (!c.batchExact ==> b == [])
            case Batch(b, ctl, rest) => Paired(rest)
    decreases |list|
  {
    if list != [] && (list[0].Sample? || list[0].SendPacket?) {
      var b := if list[0].Sample? then batch + [list[0].m] else batch;
      if |b| < c.batchSize { CollectShape(c, list[1..], b); }
    }
  }

  lemma {:induction false} QueueKeepsInv(c: Config, s: State, items: seq<Item>)
    requires Inv(c, s) && s.worker != Exited
    ensures Inv(c, Notify(Queue(s, items)))
  {
  }

  lemma {:induction false} ReceiveKeepsInv(c: Config, s: State, ids: seq<nat>)
    requires c.Valid() && Inv(c, s) && s.worker != Exited
    ensures Inv(c, Receive(c, s, ids))
  {
    SamplesPaired(Wrap(ids, s.f.begun));
  }

  lemma {:induction false} TakeKeepsInv(c: Config, s: State)
    requires c.Valid() && Inv(c, s) && Paired(s.list) && s.worker == Top
    ensures Inv(c, Take(c, s))
  {
    CollectShape(c, s.list, s.batch);
    CollectShape(c, [], []);
  }

  lemma {:induction false} StepKeepsInv(c: Config, s: State, a: Action, t: State)
    requires c.Valid() && Inv(c, s) && Paired(s.list) && CanStep(c, s, a, t)
    ensures Inv(c, t)
  {
    match a
    case AReceive(ids) => ReceiveKeepsInv(c, s, ids);
    case AEos => QueueKeepsInv(c, s, [EosPacket]);
    case ANewSegment(_, p) =>
      QueueKeepsInv(c, Accept(s, NewSegment(p)), [NewSegmentMark, SegmentParams(p)]);
    case ASendAnyway => QueueKeepsInv(c, s, [SendPacket]);
    case AReset => QueueKeepsInv(c, s, [ResetPacket]);
    case WTake => TakeKeepsInv(c, s);
    case _ => OtherKeepsInv(c, s, a, t);
  }

  /** The steps that neither queue nor take anything. */
  lemma {:induction false} OtherKeepsInv(c: Config, s: State, a: Action, t: State)
    requires c.Valid() && Inv(c, s) && Paired(s.list) && CanStep(c, s, a, t) && !a.WTake?
    requires WorkerAction(a) || !(a.AReceive? || a.AEos? || a.ANewSegment? || a.ASendAnyway? || a.AReset?)
    ensures Inv(c, t)
  {
  }

  lemma {:induction false} StepKeepsPaired(c: Config, s: State, a: Action, t: State)
    requires c.Valid() && Inv(c, s) && Paired(s.list) && CanStep(c, s, a, t)
    ensures Paired(t.list)
  {
    match a
    case AReceive(ids) =>
      var ms := Wrap(ids, s.f.begun);
      SamplesPaired(ms);
      PairedConcat(s.list, Samples(ms));
    case AEos => PairedConcat(s.list, [EosPacket]);
    case ANewSegment(_, p) =>
      var items := [NewSegmentMark, SegmentParams(p)];
      assert items[2..] == [];
      PairedConcat(s.list, items);
    case ASendAnyway => PairedConcat(s.list, [SendPacket]);
    case AReset => PairedConcat(s.list, [ResetPacket]);
    case WTake =>
      CollectShape(c, s.list, s.batch);
      CollectShape(c, [], []);
    case _ =>
  }

  lemma {:induction false} RunKeepsInv(c: Config, acts: seq<Action>, ss: seq<State>, n: nat)
    requires IsRun(c, acts, ss) && n <= |acts|
    ensures Paired(ss[n].list) && Inv(c, ss[n])
  {
    if n > 0 {
      RunKeepsInv(c, acts, ss, n - 1);
      StepKeepsPaired(c, ss[n - 1], acts[n - 1], ss[n]);
      StepKeepsInv(c, ss[n - 1], acts[n - 1], ss[n]);
    }
  }

  /** On every run: the worker is on the semaphore exactly while m_lWaiting and
      the semaphore count add up to one; and while it is there unsignalled, it
      has nothing to do and nobody waits for it to exit. */
  lemma {:induction false} NothingIsStranded(c: Config, acts: seq<Action>, ss: seq<State>, n: nat)
    requires IsRun(c, acts, ss) && n <= |acts|
    ensures ss[n].worker == Parked <==> ss[n].lWaiting + ss[n].sem == 1
    ensures ss[n].worker == Parked && ss[n].sem == 0 ==> NothingToDo(c, ss[n]) && !ss[n].terminate
  {
    RunKeepsInv(c, acts, ss, n);
  }

  /** IsIdle, as the function of the state it computes. */
  predicate IsIdle(s: State) { s.lWaiting != 0 && s.batch == [] }

  /** Without exact batching an idle queue is an empty queue: the assertion in
      IsIdle holds. */
  lemma {:induction false} IdleMeansEmpty(c: Config, acts: seq<Action>, ss: seq<State>, n: nat)
    requires IsRun(c, acts, ss) && n <= |acts| && !c.batchExact
    ensures IsIdle(ss[n]) ==> ss[n].list == []
  {
    RunKeepsInv(c, acts, ss, n);
  }

  /** With exact batching it does not: one queued sample, short of a batch, does
      not wake the worker, and the queue calls itself idle. */
  lemma {:induction false} ExactBatchingIsIdleWithSamples(c: Config) returns (acts: seq<Action>, ss: seq<State>)
    requires c.Valid() && c.batchExact
    ensures IsRun(c, acts, ss) && acts == [WTake, AReceive([7])]
    ensures IsIdle(ss[2]) && ss[2].list == [Sample(Media(7, 0))]
  {
    var s0 := Start();
    var s1 := Step(c, s0, WTake);
    var s2 := Step(c, s1, AReceive([7]));
    assert Wrap([7], 0) == [Media(7, 0)];
    assert Samples([Media(7, 0)]) == [Sample(Media(7, 0))];
    acts, ss := [WTake, AReceive([7])], [s0, s1, s2];
  }
}
