/** What the queue delivers and releases, on every run. */
module OutputQueueOrder {
  import opened OutputQueue
  import opened OutputQueueWakeUp
  import opened OutputQueueCalls

  // ---- Order ----

  /** The events a list of items stands for. */
  function Visible(list: seq<Item>): seq<Event> {
    if list == [] then []
    else ItemEvents(list[0]) + Visible(list[1..])
  }

  function ItemEvents(x: Item): seq<Event> {
    match x
    case Sample(m) => [Deliver(m)]
    case EosPacket => [EndOfStream]
    case SegmentParams(p) => [NewSegment(p)]
    case _ => []
  }

  function ControlEvents(ctl: Control): seq<Event> {
    match ctl
    case DoEos => [EndOfStream]
    case DoSegment(p) => [NewSegment(p)]
    case _ => []
  }

  /** What the worker has taken and not handed on yet. */
  function WorkerEvents(w: Worker): seq<Event> {
    if w.Sending? then Deliveries(w.batch) + ControlEvents(w.ctl) else ControlEvents(WorkerControl(w))
  }

  /** Everything accepted that may still be sent, in the order it would be. */
  function Pending(s: State): seq<Event> {
    WorkerEvents(s.worker) + (Deliveries(s.batch) + Visible(s.list))
  }

  predicate Subsequence<T(==)>(a: seq<T>, b: seq<T>) {
    if a == [] then true
    else if b == [] then false
    else if a[0] == b[0] then Subsequence(a[1..], b[1..])
    else Subsequence(a, b[1..])
  }

  lemma {:induction false} SubsequenceTail<T>(a: seq<T>, b: seq<T>)
    requires Subsequence(a, b) && a != []
    ensures Subsequence(a[1..], b)
    decreases |b|, 0
  {
    if |a| > 1 {
      if a[0] == b[0] {
        SubsequenceSkip(a[1..], b[1..], b[0]);
      } else {
        SubsequenceTail(a, b[1..]);
        SubsequenceSkip(a[1..], b[1..], b[0]);
      }
      assert [b[0]] + b[1..] == b;
    }
  }

  lemma {:induction false} SubsequenceSkip<T>(a: seq<T>, b: seq<T>, x: T)
    requires Subsequence(a, b)
    ensures Subsequence(a, [x] + b)
    decreases |b|, 1
  {
    assert ([x] + b)[1..] == b;
    if a != [] && a[0] == x {
      SubsequenceTail(a, b);
    }
  }

  /** Leaving out a middle part keeps a subsequence. */
  lemma {:induction false} SubsequenceDrop<T>(x: seq<T>, y: seq<T>, z: seq<T>, b: seq<T>)
    requires Subsequence(x + y + z, b)
    ensures Subsequence(x + z, b)
    decreases |x| + |y| + |b|
  {
    if x == [] {
      if y == [] {
        assert x + y + z == x + z;
      } else {
        SubsequenceTail(x + y + z, b);
        assert (x + y + z)[1..] == x + y[1..] + z;
        SubsequenceDrop(x, y[1..], z, b);
      }
    } else {
      assert (x + y + z)[1..] == x[1..] + y + z && (x + z)[1..] == x[1..] + z;
      if x[0] == b[0] {
        SubsequenceDrop(x[1..], y, z, b[1..]);
      } else {
        SubsequenceDrop(x, y, z, b[1..]);
      }
    }
  }

  lemma {:induction false} SubsequenceAppend<T>(a: seq<T>, b: seq<T>, e: seq<T>)
    requires Subsequence(a, b)
    ensures Subsequence(a + e, b + e)
  {
    if a == [] {
      assert a + e == e;
      SubsequencePrefix(e, b);
    } else {
      assert (a + e)[1..] == a[1..] + e && (b + e)[1..] == b[1..] + e;
      if a[0] == b[0] {
        SubsequenceAppend(a[1..], b[1..], e);
      } else {
        SubsequenceAppend(a, b[1..], e);
      }
    }
  }

  lemma {:induction false} SubsequencePrefix<T>(e: seq<T>, b: seq<T>)
    ensures Subsequence(e, b + e)
  {
    if b == [] {
      assert b + e == e;
      SubsequenceSelf(e);
    } else {
      SubsequencePrefix(e, b[1..]);
      SubsequenceSkip(e, b[1..] + e, b[0]);
      assert [b[0]] + (b[1..] + e) == b + e;
    }
  }

  lemma {:induction false} SubsequenceSelf<T>(e: seq<T>)
    ensures Subsequence(e, e)
  {
    if e != [] { SubsequenceSelf(e[1..]); }
  }

  lemma {:induction false} Associative<T>(a: seq<T>, b: seq<T>, c: seq<T>)
    ensures a + (b + c) == (a + b) + c
  {
  }

  lemma {:induction false} VisibleConcat(a: seq<Item>, b: seq<Item>)
    ensures Visible(a + b) == Visible(a) + Visible(b)
  {
    if a == [] {
      assert a + b == b;
    } else {
      var ab := a + b;
      VisibleConcat(a[1..], b);
      Associative(ItemEvents(a[0]), Visible(a[1..]), Visible(b));
      assert ab[1..] == a[1..] + b && ab[0] == a[0];
    }
  }

  lemma {:induction false} SamplesInConcat(a: seq<Item>, b: seq<Item>)
    ensures SamplesIn(a + b) == SamplesIn(a) + SamplesIn(b)
  {
    if a == [] {
      assert a + b == b;
    } else {
      var ab := a + b;
      SamplesInConcat(a[1..], b);
      Associative(ItemSamples(a[0]), SamplesIn(a[1..]), SamplesIn(b));
      assert ab[1..] == a[1..] + b && ab[0] == a[0];
    }
  }

  lemma {:induction false} DeliveriesConcat(a: seq<Media>, b: seq<Media>)
    ensures Deliveries(a + b) == Deliveries(a) + Deliveries(b)
  {
    if a == [] {
      assert a + b == b;
    } else {
      var ab := a + b;
      DeliveriesConcat(a[1..], b);
      Associative([Deliver(a[0])], Deliveries(a[1..]), Deliveries(b));
      assert ab[1..] == a[1..] + b && ab[0] == a[0];
    }
  }

  lemma {:induction false} VisibleSamples(ms: seq<Media>)
    ensures Visible(Samples(ms)) == Deliveries(ms)
    ensures SamplesIn(Samples(ms)) == ms
  {
    if ms != [] {
      VisibleSamples(ms[1..]);
      assert Samples(ms)[1..] == Samples(ms[1..]);
    }
  }

  lemma {:induction false} SegmentVisible(list: seq<Item>)
    requires |list| > 1 && list[0] == NewSegmentMark && list[1].SegmentParams?
    ensures Visible(list) == [NewSegment(list[1].p)] + Visible(list[2..])
  {
    assert list[1..][0] == list[1] && list[1..][1..] == list[2..];
    Empty(Visible(list[1..]));
  }

  lemma {:induction false} SampleJoins(batch: seq<Media>, m: Media, rest: seq<Item>)
    ensures Deliveries(batch) + ([Deliver(m)] + Visible(rest)) == Deliveries(batch + [m]) + Visible(rest)
  {
    DeliveriesConcat(batch, [m]);
    assert Deliveries([m]) == [Deliver(m)];
    Associative(Deliveries(batch), [Deliver(m)], Visible(rest));
  }

  /** The worker's inner loop neither loses, adds nor reorders anything. */
  lemma {:induction false} CollectKeepsOrder(c: Config, list: seq<Item>, batch: seq<Media>)
    requires Paired(list)
    ensures Deliveries(batch) + Visible(list)
         == match Collect(c, list, batch)
            case Idle(b) => Deliveries(b)
            case Batch(b, ctl, rest) => Deliveries(b) + (ControlEvents(ctl) + Visible(rest))
    decreases |list|
  {
    if list == [] {
      Empty(Deliveries(batch));
    } else {
      match list[0]
      case Sample(m) =>
        SampleJoins(batch, m, list[1..]);
        if |batch| + 1 != c.batchSize { CollectKeepsOrder(c, list[1..], batch + [m]); }
      case SendPacket =>
        Empty(Visible(list[1..]));
        if batch == [] { CollectKeepsOrder(c, list[1..], batch); }
      case NewSegmentMark =>
        SegmentVisible(list);
      case _ =>
    }
  }

  lemma {:induction false} CollectKeepsSamples(c: Config, list: seq<Item>, batch: seq<Media>)
    requires Paired(list)
    ensures batch + SamplesIn(list)
         == match Collect(c, list, batch)
            case Idle(b) => b
            case Batch(b, ctl, rest) => b + SamplesIn(rest)
    decreases |list|
  {
    if list != [] {
      match list[0]
      case Sample(m) =>
        Associative(batch, [m], SamplesIn(list[1..]));
        if |batch| + 1 != c.batchSize { CollectKeepsSamples(c, list[1..], batch + [m]); }
      case SendPacket =>
        NoSample(SamplesIn(list[1..]));
        if batch == [] { CollectKeepsSamples(c, list[1..], batch); }
      case NewSegmentMark =>
        SegmentSamples(list);
      case EosPacket => NoSample(SamplesIn(list[1..]));
      case ResetPacket => NoSample(SamplesIn(list[1..]));
      case _ =>
    }
  }

  lemma {:induction false} NoSample(a: seq<Media>)
    ensures [] + a == a
  {
  }

  lemma {:induction false} SegmentSamples(list: seq<Item>)
    requires |list| > 1 && list[0] == NewSegmentMark && list[1].SegmentParams?
    ensures SamplesIn(list) == SamplesIn(list[2..])
  {
    assert list[1..][0] == list[1] && list[1..][1..] == list[2..];
    NoSample(SamplesIn(list[2..]));
    NoSample(SamplesIn(list[1..]));
  }

  /** What was sent, followed by everything that may still be. */
  function Line(s: State): seq<Event> { s.h.sent + Pending(s) }

  lemma {:induction false} Regroup<T>(a: seq<T>, b: seq<T>, c: seq<T>, d: seq<T>)
    ensures a + ((b + c) + d) == a + b + (c + d)
    ensures a + (b + (c + d)) == a + b + (c + d)
    ensures a + (b + (c + d)) == (a + (b + c)) + d
  {
  }

  /** Queueing adds at the end of the line. */
  lemma {:induction false} QueueLine(s: State, t: State, items: seq<Item>)
    requires t.list == s.list + items && t.batch == s.batch && t.worker == s.worker && t.h.sent == s.h.sent
    ensures Line(t) == Line(s) + Visible(items)
  {
    VisibleConcat(s.list, items);
    Append5(s.h.sent, WorkerEvents(s.worker), Deliveries(s.batch), Visible(s.list), Visible(items));
  }

  lemma {:induction false} Append5<T>(a: seq<T>, b: seq<T>, c: seq<T>, d: seq<T>, e: seq<T>)
    ensures a + (b + (c + (d + e))) == (a + (b + (c + d))) + e
  {
    assert c + (d + e) == (c + d) + e;
    Regroup(a, b, c + d, e);
  }

  lemma {:induction false} TakeIdleLine(c: Config, s: State)
    requires Paired(s.list) && s.worker == Top && !s.f.flushing && !s.terminate
    requires Collect(c, s.list, s.batch).Idle?
    ensures Line(Take(c, s)) == Line(s)
  {
    CollectKeepsOrder(c, s.list, s.batch);
    var t := Take(c, s);
    assert Deliveries(t.batch) + Visible(t.list) == Deliveries(s.batch) + Visible(s.list);
    assert WorkerEvents(t.worker) == WorkerEvents(s.worker);
  }

  lemma {:induction false} TakeBatchLine(c: Config, s: State)
    requires Paired(s.list) && s.worker == Top && !s.f.flushing && !s.terminate
    requires Collect(c, s.list, s.batch).Batch?
    ensures Line(Take(c, s)) == Line(s)
  {
    CollectKeepsOrder(c, s.list, s.batch);
    var t := Take(c, s);
    var r := Collect(c, s.list, s.batch);
    var b, ctl, rest := Deliveries(r.batch), ControlEvents(r.ctl), Visible(r.list);
    assert Pending(s) == b + (ctl + rest) by {
      assert WorkerEvents(s.worker) == [];
      Empty(Deliveries(s.batch) + Visible(s.list));
    }
    assert Pending(t) == (b + ctl) + rest by {
      assert WorkerEvents(t.worker) == b + ctl;
      assert Deliveries(t.batch) == [];
      Empty(rest);
    }
    Associative(b, ctl, rest);
  }

  lemma {:induction false} TakeDropsAll(c: Config, s: State)
    requires Paired(s.list) && s.worker == Top && (s.f.flushing || s.terminate)
    ensures Line(Take(c, s)) == s.h.sent
  {
    var t := Take(c, s);
    assert t.list == [] && t.batch == [] && WorkerEvents(t.worker) == [];
    assert Pending(t) == [];
  }

  lemma {:induction false} SendLine(s: State) returns (x: seq<Event>, y: seq<Event>, z: seq<Event>)
    requires s.worker.Sending?
    ensures Line(s) == x + y + z && Line(BeginSend(s)) == x + z
    ensures s.hr == S_OK ==> y == []
  {
    var b, later := Deliveries(s.worker.batch), ControlEvents(s.worker.ctl) + (Deliveries(s.batch) + Visible(s.list));
    SendPending(s);
    Associative(s.h.sent, b, later);
    Empty(s.h.sent + b);
    if s.hr == S_OK || s.worker.batch == [] {
      x, y, z := s.h.sent + b, [], later;
    } else {
      x, y, z := s.h.sent, b, later;
    }
  }

  lemma {:induction false} SendPending(s: State)
    requires s.worker.Sending?
    ensures var b, later, t := Deliveries(s.worker.batch), ControlEvents(s.worker.ctl) + (Deliveries(s.batch) + Visible(s.list)),
                               BeginSend(s);
            && Pending(s) == b + later && Pending(t) == later && (s.worker.batch == [] ==> b == [])
            && t.h.sent == if s.hr == S_OK then s.h.sent + b else s.h.sent
  {
    var b, ctl, rest := Deliveries(s.worker.batch), ControlEvents(s.worker.ctl), Deliveries(s.batch) + Visible(s.list);
    Associative(b, ctl, rest);
    Empty(s.h.sent);
  }

  lemma {:induction false} Empty(a: seq<Event>)
    ensures [] + a == a && a + [] == a
  {
  }

  lemma {:induction false} ControlLine(s: State) returns (x: seq<Event>, y: seq<Event>, z: seq<Event>)
    requires s.worker.Controlling?
    ensures Line(s) == x + y + z && Line(ActOnControl(s)) == x + z
    ensures s.hr == S_OK ==> y == []
  {
    var ctl, rest := ControlEvents(s.worker.ctl), Deliveries(s.batch) + Visible(s.list);
    ControlPending(s);
    Associative(s.h.sent, ctl, rest);
    Empty(s.h.sent + ctl);
    if s.hr == S_OK || s.worker.ctl != DoEos {
      x, y, z := s.h.sent + ctl, [], rest;
    } else {
      x, y, z := s.h.sent, ctl, rest;
      Empty(s.h.sent);
    }
  }

  lemma {:induction false} ControlPending(s: State)
    requires s.worker.Controlling?
    ensures var t := ActOnControl(s);
            && Pending(t) == Deliveries(s.batch) + Visible(s.list)
            && t.h.sent == s.h.sent + (if s.hr == S_OK || s.worker.ctl != DoEos then ControlEvents(s.worker.ctl) else [])
  {
    ControlSends(s);
    Empty(Deliveries(s.batch) + Visible(s.list));
    Empty(s.h.sent);
  }

  lemma {:induction false} ControlSends(s: State)
    requires s.worker.Controlling?
    ensures var t, e := ActOnControl(s), ControlEvents(s.worker.ctl);
            && WorkerEvents(t.worker) == [] && t.batch == s.batch && t.list == s.list
            && t.h.sent == if e == [] || (s.worker.ctl == DoEos && s.hr != S_OK) then s.h.sent else s.h.sent + e
  {
  }

  predicate Smooth(s: State) { s.hr == S_OK && !s.f.flushing && !s.terminate }

  /** The steps that change the line. */
  predicate MovesLine(a: Action) { a.WTake? || a.WBeginSend? || a.WControl? }

  /** A worker's step takes at most a stretch y out of the line, and nothing
      unless something failed or is being flushed. */
  lemma {:induction false} WorkerLine(c: Config, s: State, a: Action, t: State)
    returns (x: seq<Event>, y: seq<Event>, z: seq<Event>)
    requires Paired(s.list) && CanStep(c, s, a, t) && MovesLine(a)
    ensures Line(s) == x + y + z && Line(t) == x + z && t.h.accepted == s.h.accepted
    ensures Smooth(s) ==> y == []
  {
    match a
    case WTake =>
      if s.f.flushing || s.terminate {
        TakeDropsAll(c, s);
        x, y, z := s.h.sent, Pending(s), [];
      } else {
        if Collect(c, s.list, s.batch).Idle? { TakeIdleLine(c, s); } else { TakeBatchLine(c, s); }
        x, y, z := Line(s), [], [];
      }
    case WBeginSend => x, y, z := SendLine(s);
    case WControl => x, y, z := ControlLine(s);
  }

  /** A client's step adds at the end of the line what it adds to `accepted`. */
  lemma {:induction false} ClientLine(c: Config, s: State, a: Action, t: State) returns (e: seq<Event>)
    requires Paired(s.list) && CanStep(c, s, a, t) && !MovesLine(a)
    ensures Line(t) == Line(s) + e && t.h.accepted == s.h.accepted + e
  {
    e := EventsOf(s, a);
    if t.worker == s.worker {
      ClientAdds(c, s, a, t);
      VisibleItems(s, a);
      QueueLine(s, t, ItemsOf(s, a));
    } else {
      WorkerIdles(c, s, a, t);
    }
  }

  /** What a client's step queues, and the events that stand for it. */
  function ItemsOf(s: State, a: Action): seq<Item> {
    match a
    case AReceive(ids) => if s.hr == S_OK then Samples(Wrap(ids, s.f.begun)) else []
    case AEos => if s.hr == S_OK then [EosPacket] else []
    case ANewSegment(hrSeen, p) => if hrSeen == S_OK then [NewSegmentMark, SegmentParams(p)] else []
    case ASendAnyway => [SendPacket]
    case AReset => [ResetPacket]
    case _ => []
  }

  function EventsOf(s: State, a: Action): seq<Event> {
    match a
    case AReceive(ids) => if s.hr == S_OK then Deliveries(Wrap(ids, s.f.begun)) else []
    case AEos => if s.hr == S_OK then [EndOfStream] else []
    case ANewSegment(hrSeen, p) => if hrSeen == S_OK then [NewSegment(p)] else []
    case _ => []
  }

  lemma {:induction false} VisibleItems(s: State, a: Action)
    ensures Visible(ItemsOf(s, a)) == EventsOf(s, a)
  {
    if a.AReceive? { VisibleSamples(Wrap(a.ids, s.f.begun)); }
    VisibleOf(ItemsOf(s, a));
  }

  lemma {:induction false} ClientAdds(c: Config, s: State, a: Action, t: State)
    requires Paired(s.list) && CanStep(c, s, a, t) && !MovesLine(a) && t.worker == s.worker
    ensures t.list == s.list + ItemsOf(s, a) && t.batch == s.batch
    ensures t.h.sent == s.h.sent && t.h.accepted == s.h.accepted + EventsOf(s, a)
  {
  }

  lemma {:induction false} WorkerIdles(c: Config, s: State, a: Action, t: State)
    requires Paired(s.list) && CanStep(c, s, a, t) && !MovesLine(a) && t.worker != s.worker
    ensures Line(t) == Line(s) && t.h.accepted == s.h.accepted && EventsOf(s, a) == []
  {
    OtherWorkerStep(c, s, a, t);
  }

  lemma {:induction false} OtherWorkerStep(c: Config, s: State, a: Action, t: State)
    requires Paired(s.list) && CanStep(c, s, a, t) && !MovesLine(a) && t.worker != s.worker
    ensures a.WWake? || a.WEndSend? || a.WRelease?
    ensures t.list == s.list && t.batch == s.batch && t.h.sent == s.h.sent && t.h.accepted == s.h.accepted
    ensures WorkerControl(t.worker) == WorkerControl(s.worker) && !t.worker.Sending? && !s.worker.Sending?
  {
  }

  lemma {:induction false} VisibleOf(items: seq<Item>)
    ensures items == [EosPacket] ==> Visible(items) == [EndOfStream]
    ensures items == [SendPacket] || items == [ResetPacket] ==> Visible(items) == []
    ensures |items| == 2 && items[0] == NewSegmentMark && items[1].SegmentParams? ==> Visible(items) == [NewSegment(items[1].p)]
  {
    if |items| == 2 {
      assert items[1..] == [items[1]] && Visible([items[1]]) == ItemEvents(items[1]);
    }
  }

  // ---- Order on every run ----

  predicate OrderInv(s: State) {
    && Subsequence(Line(s), s.h.accepted)
    && (s.h.undisturbed ==> Smooth(s) && s.f.phase == NotFlushing && Line(s) == s.h.accepted)
  }

  lemma {:induction false} WorkerKeepsOrder(c: Config, s: State, a: Action, t: State)
    requires Paired(s.list) && CanStep(c, s, a, t) && MovesLine(a) && Subsequence(Line(s), s.h.accepted)
    ensures Subsequence(Line(t), t.h.accepted)
    ensures Smooth(s) && Line(s) == s.h.accepted ==> Line(t) == t.h.accepted
  {
    var x, y, z := WorkerLine(c, s, a, t);
    DropKeepsOrder(Line(s), x, y, z, s.h.accepted);
  }

  lemma {:induction false} DropKeepsOrder<T>(l: seq<T>, x: seq<T>, y: seq<T>, z: seq<T>, b: seq<T>)
    requires l == x + y + z && Subsequence(l, b)
    ensures Subsequence(x + z, b) && (y == [] ==> x + z == l)
  {
    SubsequenceDrop(x, y, z, b);
  }

  lemma {:induction false} ClientKeepsOrder(c: Config, s: State, a: Action, t: State)
    requires Paired(s.list) && CanStep(c, s, a, t) && !MovesLine(a) && Subsequence(Line(s), s.h.accepted)
    ensures Subsequence(Line(t), t.h.accepted)
    ensures Line(s) == s.h.accepted ==> Line(t) == t.h.accepted
  {
    var e := ClientLine(c, s, a, t);
    SubsequenceAppend(Line(s), s.h.accepted, e);
  }

  lemma {:induction false} StepKeepsOrder(c: Config, s: State, a: Action, t: State)
    requires Paired(s.list) && CanStep(c, s, a, t) && OrderInv(s)
    ensures OrderInv(t)
  {
    if MovesLine(a) { WorkerKeepsOrder(c, s, a, t); } else { ClientKeepsOrder(c, s, a, t); }
    StaysSmooth(c, s, a, t);
  }

  lemma {:induction false} StaysSmooth(c: Config, s: State, a: Action, t: State)
    requires Paired(s.list) && CanStep(c, s, a, t)
    ensures t.h.undisturbed ==> s.h.undisturbed
    ensures t.h.undisturbed && Smooth(s) && s.f.phase == NotFlushing ==> Smooth(t) && t.f.phase == NotFlushing
  {
    if WorkerAction(a) { WorkerStaysSmooth(c, s, a, t); }
  }

  lemma {:induction false} WorkerStaysSmooth(c: Config, s: State, a: Action, t: State)
    requires Paired(s.list) && CanStep(c, s, a, t) && WorkerAction(a)
    ensures t.h.undisturbed ==> s.h.undisturbed && (Smooth(s) ==> t.hr == S_OK)
    ensures t.f.flushing == s.f.flushing && t.terminate == s.terminate && t.f.phase == s.f.phase
  {
  }

  lemma {:induction false} RunKeepsOrder(c: Config, acts: seq<Action>, ss: seq<State>, n: nat)
    requires IsRun(c, acts, ss) && n <= |acts|
    ensures OrderInv(ss[n])
  {
    if n > 0 {
      var m := n - 1;
      RunKeepsOrder(c, acts, ss, m);
      RunKeepsInv(c, acts, ss, m);
      StepKeepsOrder(c, ss[m], acts[m], ss[m + 1]);
    }
  }

  /** A flush, the destructor, or a failing downstream pin. */
  predicate Disturbs(a: Action) {
    a.ABeginFlush? || a.ATerminate? || (a.WEndSend? && a.hr != S_OK)
  }

  lemma {:induction false} Undisturbed(c: Config, acts: seq<Action>, ss: seq<State>, n: nat)
    requires IsRun(c, acts, ss) && n <= |acts|
    requires forall i :: 0 <= i < n ==> !Disturbs(acts[i])
    ensures ss[n].h.undisturbed
  {
    if n > 0 {
      Undisturbed(c, acts, ss, n - 1);
      RunKeepsInv(c, acts, ss, n - 1);
      StepUndisturbed(c, ss[n - 1], acts[n - 1], ss[n]);
    }
  }

  lemma {:induction false} StepUndisturbed(c: Config, s: State, a: Action, t: State)
    requires Paired(s.list) && CanStep(c, s, a, t) && !Disturbs(a) && s.h.undisturbed
    ensures t.h.undisturbed
  {
  }

  /** With no flush, no destructor and no downstream failure, what was sent, then
      the worker's batch, the batch buffer and the list are what was accepted:
      samples, ends of stream and new segments, all in order. */
  lemma {:induction false} NothingLostOrReordered(c: Config, acts: seq<Action>, ss: seq<State>, n: nat)
    requires IsRun(c, acts, ss) && n <= |acts|
    requires forall i :: 0 <= i < n ==> !Disturbs(acts[i])
    ensures ss[n].h.sent + Pending(ss[n]) == AcceptedEvents(acts, ss, n)
    ensures ss[n].hr == S_OK
  {
    Undisturbed(c, acts, ss, n);
    RunKeepsOrder(c, acts, ss, n);
    BooksAgree(c, acts, ss, n);
  }

  /** On every run, with flushes, failures and the destructor too, what was sent
      is a subsequence of what was accepted. */
  lemma {:induction false} SentInOrder(c: Config, acts: seq<Action>, ss: seq<State>, n: nat)
    requires IsRun(c, acts, ss) && n <= |acts|
    ensures Subsequence(ss[n].h.sent, AcceptedEvents(acts, ss, n))
  {
    RunKeepsOrder(c, acts, ss, n);
    BooksAgree(c, acts, ss, n);
    var sent, pending := ss[n].h.sent, Pending(ss[n]);
    assert sent + pending == sent + pending + [];
    SubsequenceDrop(sent, pending, [], ss[n].h.accepted);
    assert sent + [] == sent;
  }

  // ---- References ----

  /** The sample references the queue still owns. */
  function Held(s: State): multiset<Media> {
    multiset(SamplesIn(s.list)) + multiset(s.batch) + multiset(WorkerBatch(s.worker))
  }

  predicate RefInv(s: State) { s.h.given == s.h.released + Held(s) }

  /** Samples appended to the list, beside other items. */
  lemma {:induction false} HeldAfterQueueing(s: State, t: State, items: seq<Item>, ms: seq<Media>)
    requires t.list == s.list + items && SamplesIn(items) == ms
    requires t.batch == s.batch && t.worker == s.worker
    ensures Held(t) == Held(s) + multiset(ms)
  {
    SamplesInConcat(s.list, items);
    assert multiset(SamplesIn(s.list) + ms) == multiset(SamplesIn(s.list)) + multiset(ms);
  }

  lemma {:induction false} HeldAfterTaking(c: Config, s: State)
    requires Paired(s.list) && s.worker == Top && !s.f.flushing && !s.terminate
    ensures Held(Take(c, s)) == Held(s)
  {
    CollectKeepsSamples(c, s.list, s.batch);
    SumOfSamples(s.batch, SamplesIn(s.list));
    var t := Take(c, s);
    if Collect(c, s.list, s.batch).Batch? {
      SumOfSamples(t.worker.batch, SamplesIn(t.list));
    }
  }

  lemma {:induction false} SumOfSamples(a: seq<Media>, b: seq<Media>)
    ensures multiset(a + b) == multiset(a) + multiset(b)
    ensures multiset(b) + multiset(a) == multiset(a + b)
  {
  }

  lemma {:induction false} FreedByTaking(c: Config, s: State)
    requires Paired(s.list) && s.worker == Top && (s.f.flushing || s.terminate)
    ensures Held(Take(c, s)) == multiset{}
    ensures Take(c, s).h.released == s.h.released + Held(s)
  {
    assert SamplesIn([]) == [];
  }

  /** References move between what is held and what is released; only newly
      given ones are added. */
  lemma {:induction false} Balance(s: State, t: State, given: multiset<Media>, released: multiset<Media>)
    requires RefInv(s)
    requires t.h.given == s.h.given + given && t.h.released == s.h.released + released
    requires Held(t) + released == Held(s) + given
    ensures RefInv(t)
  {
    SumsAgree(s.h.released, Held(s), given, released, Held(t));
  }

  lemma {:induction false} SumsAgree<T>(r: multiset<T>, h: multiset<T>, g: multiset<T>, d: multiset<T>, h2: multiset<T>)
    requires h2 + d == h + g
    ensures r + h + g == r + d + h2
  {
    assert r + h + g == r + (h + g);
  }

  lemma {:induction false} ReceiveKeepsRefs(c: Config, s: State, ids: seq<nat>)
    requires RefInv(s)
    ensures RefInv(Receive(c, s, ids))
  {
    var t := Receive(c, s, ids);
    ReceiveRefs(c, s, ids, t);
    ReceivedKeepsRefs(s, t, Wrap(ids, s.f.begun));
  }

  /** What ReceiveMultiple does with the references: all are queued, or all released. */
  predicate MovesRefs(s: State, t: State, ms: seq<Media>) {
    && t.h.given == s.h.given + multiset(ms) && t.batch == s.batch && t.worker == s.worker
    && if s.hr == S_OK then t.h.released == s.h.released && t.list == s.list + Samples(ms)
       else t.h.released == s.h.released + multiset(ms) && t.list == s.list
  }

  lemma {:induction false} ReceiveRefs(c: Config, s: State, ids: seq<nat>, t: State)
    requires t == Receive(c, s, ids)
    ensures MovesRefs(s, t, Wrap(ids, s.f.begun))
  {
  }

  lemma {:induction false} ReceivedKeepsRefs(s: State, t: State, ms: seq<Media>)
    requires RefInv(s) && MovesRefs(s, t, ms)
    ensures RefInv(t)
  {
    VisibleSamples(ms);
    if s.hr == S_OK {
      HeldAfterQueueing(s, t, Samples(ms), ms);
      Balance(s, t, multiset(ms), multiset{});
    } else {
      Balance(s, t, multiset(ms), multiset(ms));
    }
  }

  lemma {:induction false} TakeKeepsRefs(c: Config, s: State)
    requires Paired(s.list) && s.worker == Top && RefInv(s)
    ensures RefInv(Take(c, s))
  {
    if s.f.flushing || s.terminate {
      FreedByTaking(c, s);
    } else {
      HeldAfterTaking(c, s);
    }
  }

  /** The steps that move no samples. */
  lemma {:induction false} IdleStep(c: Config, s: State, a: Action, t: State)
    requires Paired(s.list) && CanStep(c, s, a, t)
    requires !a.AReceive? && !a.WTake? && !a.WRelease?
    ensures t.h.given == s.h.given && t.h.released == s.h.released
    ensures t.batch == s.batch && WorkerBatch(t.worker) == WorkerBatch(s.worker)
    ensures t.list == s.list || t.list == s.list + NewItems(a)
  {
    if WorkerAction(a) { IdleWorkerStep(c, s, a, t); } else { IdleClientStep(c, s, a, t); }
  }

  lemma {:induction false} IdleWorkerStep(c: Config, s: State, a: Action, t: State)
    requires Paired(s.list) && CanStep(c, s, a, t) && WorkerAction(a) && !a.WTake? && !a.WRelease?
    ensures t.h.given == s.h.given && t.h.released == s.h.released
    ensures t.batch == s.batch && t.list == s.list && WorkerBatch(t.worker) == WorkerBatch(s.worker)
  {
  }

  lemma {:induction false} IdleClientStep(c: Config, s: State, a: Action, t: State)
    requires Paired(s.list) && CanStep(c, s, a, t) && !WorkerAction(a) && !a.AReceive?
    ensures t.h.given == s.h.given && t.h.released == s.h.released
    ensures t.batch == s.batch && t.worker == s.worker
    ensures t.list == s.list || t.list == s.list + NewItems(a)
  {
  }

  lemma {:induction false} IdleKeepsRefs(s: State, t: State, items: seq<Item>)
    requires RefInv(s) && SamplesIn(items) == []
    requires t.h.given == s.h.given && t.h.released == s.h.released
    requires t.batch == s.batch && WorkerBatch(t.worker) == WorkerBatch(s.worker)
    requires t.list == s.list || t.list == s.list + items
    ensures RefInv(t)
  {
    SamplesInConcat(s.list, items);
    assert SamplesIn(t.list) == SamplesIn(s.list);
  }

  function NewItems(a: Action): seq<Item> {
    match a
    case AEos => [EosPacket]
    case ANewSegment(_, p) => [NewSegmentMark, SegmentParams(p)]
    case ASendAnyway => [SendPacket]
    case AReset => [ResetPacket]
    case _ => []
  }

  lemma {:induction false} StepKeepsRefs(c: Config, s: State, a: Action, t: State)
    requires Paired(s.list) && CanStep(c, s, a, t) && RefInv(s)
    ensures RefInv(t)
  {
    match a
    case AReceive(ids) => ReceiveKeepsRefs(c, s, ids);
    case WTake => TakeKeepsRefs(c, s);
    case WRelease => Balance(s, Release(s), multiset{}, multiset(s.worker.batch));
    case _ => OtherKeepsRefs(c, s, a, t);
  }

  lemma {:induction false} OtherKeepsRefs(c: Config, s: State, a: Action, t: State)
    requires Paired(s.list) && CanStep(c, s, a, t) && RefInv(s)
    requires !a.AReceive? && !a.WTake? && !a.WRelease?
    ensures RefInv(t)
  {
    IdleStep(c, s, a, t);
    NoSamples(NewItems(a));
    IdleKeepsRefs(s, t, NewItems(a));
  }

  lemma {:induction false} NoSamples(items: seq<Item>)
    requires forall x <- items :: !x.Sample?
    ensures SamplesIn(items) == []
  {
    if items != [] { NoSamples(items[1..]); }
  }

  lemma {:induction false} RunKeepsRefs(c: Config, acts: seq<Action>, ss: seq<State>, n: nat)
    requires IsRun(c, acts, ss) && n <= |acts|
    ensures RefInv(ss[n])
  {
    if n > 0 {
      RunKeepsRefs(c, acts, ss, n - 1);
      RunKeepsInv(c, acts, ss, n - 1);
      StepKeepsRefs(c, ss[n - 1], acts[n - 1], ss[n]);
    }
  }

  /** Every sample reference passed in, accepted or refused, is either still held
      in one place or has been released once; when the destructor has stopped
      the worker, all have been released, each exactly once. */
  lemma {:induction false} ReleasedExactlyOnce(c: Config, acts: seq<Action>, ss: seq<State>, n: nat)
    requires IsRun(c, acts, ss) && n <= |acts|
    ensures Offered(acts, n) == ss[n].h.released + Held(ss[n])
    ensures ss[n].worker == Exited ==> Offered(acts, n) == ss[n].h.released
  {
    BooksAgree(c, acts, ss, n);
    RunKeepsRefs(c, acts, ss, n);
    RunKeepsInv(c, acts, ss, n);
  }
}
