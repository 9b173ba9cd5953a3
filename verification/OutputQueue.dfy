/** COutputQueue in queued mode: a client side that queues samples and control
    packets, a worker that batches and delivers them, a flush handshake and a
    lazily signalled semaphore (external/baseclasses/outputq.cpp). Each step is
    one critical section, or one access made outside it. */
module OutputQueue {
  datatype Segment = Segment(start: int, stop: int, rate: real)

  /** A sample, marked with the number of flushes begun when it was received. */
  datatype Media = Media(id: nat, epoch: nat)

  /** What the list holds. A NEW_SEGMENT marker is followed by its parameters. */
  datatype Item = Sample(m: Media) | SendPacket | EosPacket | ResetPacket | NewSegmentMark | SegmentParams(p: Segment)

  /** What the worker still has to do after sending its batch. */
  datatype Control = NoControl | DoSend | DoEos | DoReset | DoSegment(p: Segment)

  /** Where the worker is: before its critical section, waiting on the
      semaphore, with a batch to send, inside ReceiveMultiple, with a batch to
      release, or with a control packet to act on. */
  datatype Worker =
    | Top
    | Parked
    | Sending(batch: seq<Media>, ctl: Control)
    | Delivering(batch: seq<Media>, ctl: Control)
    | Releasing(batch: seq<Media>, ctl: Control)
    | Controlling(ctl: Control)
    | Exited

  /** Where the flushing thread is between BeginFlush and the end of EndFlush. */
  datatype Phase = NotFlushing | Begun | Waiting | Waited | Unflagged | Reflagged

  /** What a downstream pin is handed. */
  datatype Event = Deliver(m: Media) | EndOfStream | NewSegment(p: Segment)

  /** One delivery as it happened: the flushes completed by then. */
  datatype Delivery = Delivery(m: Media, completed: nat)

  datatype Config = Config(batchSize: nat, batchExact: bool, flushingOpt: bool) {
    /** The constructor's m_bBatchExact(bBatchExact && lBatchSize > 1). */
    predicate Valid() { batchSize > 0 && (batchExact ==> batchSize > 1) }
  }

  type HResult = int
  const S_OK: HResult := 0
  const S_FALSE: HResult := 1

  /** The flush handshake: its flags and event, where the flushing thread is,
      how many Reset calls wait, how many flushes were begun and completed, and
      whether a Reset was ever in flight during one. */
  datatype Flush = Flush(flushing: bool, flushed: bool, event: bool, phase: Phase, resetters: nat,
                         begun: nat, completed: nat, raced: bool)

  /** What happened so far: events accepted and sent, in order; deliveries; sample
      references taken over and given back; and whether nothing was ever
      flushed, refused downstream or terminated. */
  datatype History = History(accepted: seq<Event>, sent: seq<Event>, deliveries: seq<Delivery>,
                             given: multiset<Media>, released: multiset<Media>, undisturbed: bool)

  /** The queue and its worker. */
  datatype State = State(list: seq<Item>, batch: seq<Media>, hr: HResult, terminate: bool,
                         lWaiting: nat, sem: nat, worker: Worker, f: Flush, h: History)

  function Start(): State {
    State([], [], S_OK, false, 0, 0, Top,
          Flush(false, true, false, NotFlushing, 0, 0, 0, false),
          History([], [], [], multiset{}, multiset{}, true))
  }

  // ---- The client side ----

  /** NotifyThread. */
  function Notify(s: State): State {
    if s.lWaiting != 0 then s.(sem := s.sem + s.lWaiting, lWaiting := 0) else s
  }

  function Queue(s: State, items: seq<Item>): State {
    s.(list := s.list + items)
  }

  function Wrap(ids: seq<nat>, epoch: nat): (ms: seq<Media>)
    ensures |ms| == |ids| && forall i :: 0 <= i < |ids| ==> ms[i] == Media(ids[i], epoch)
  {
    seq(|ids|, i requires 0 <= i < |ids| => Media(ids[i], epoch))
  }

  function Samples(ms: seq<Media>): (items: seq<Item>)
    ensures |items| == |ms|
  {
    if ms == [] then [] else [Sample(ms[0])] + Samples(ms[1..])
  }

  function Deliveries(ms: seq<Media>): (events: seq<Event>)
    ensures |events| == |ms|
  {
    if ms == [] then [] else [Deliver(ms[0])] + Deliveries(ms[1..])
  }

  /** Samples that are accepted and queued. */
  function AcceptSamples(s: State, ms: seq<Media>): State {
    Queue(s.(f := s.f.(flushed := false), h := s.h.(accepted := s.h.accepted + Deliveries(ms))), Samples(ms))
  }

  /** ReceiveMultiple. */
  function Receive(c: Config, s: State, ids: seq<nat>): State {
    var ms := Wrap(ids, s.f.begun);
    var h := s.h.(given := s.h.given + multiset(ms));
    if s.hr != S_OK then s.(h := h.(released := h.released + multiset(ms)))
    else
      var s := AcceptSamples(s.(h := h), ms);
      if !c.batchExact || |s.batch| + |s.list| >= c.batchSize then Notify(s) else s
  }

  function Accept(s: State, e: Event): State { s.(h := s.h.(accepted := s.h.accepted + [e])) }

  function Eos(s: State): State {
    if s.hr == S_OK then
      Notify(Queue(Accept(s, EndOfStream).(f := s.f.(flushed := false)), [EosPacket]))
    else s
  }

  /** NewSegment, after its unlocked look at m_hr. */
  function QueueSegment(s: State, hrSeen: HResult, p: Segment): State {
    if hrSeen == S_OK then Notify(Queue(Accept(s, NewSegment(p)), [NewSegmentMark, SegmentParams(p)]))
    else s
  }

  function SendAnyway(s: State): State { Notify(Queue(s, [SendPacket])) }

  function Reset(s: State): State {
    var f := s.f.(resetters := s.f.resetters + 1, raced := s.f.raced || s.f.phase != NotFlushing);
    Notify(Queue(s.(f := f), [ResetPacket]))
  }

  predicate ResetInFlight(s: State) {
    ResetPacket in s.list || s.f.resetters > 0 || WorkerControl(s.worker) == DoReset
  }

  function WorkerControl(w: Worker): Control {
    match w
    case Sending(_, ctl) => ctl
    case Delivering(_, ctl) => ctl
    case Releasing(_, ctl) => ctl
    case Controlling(ctl) => ctl
    case _ => NoControl
  }

  function WorkerBatch(w: Worker): seq<Media> {
    match w
    case Sending(b, _) => b
    case Delivering(b, _) => b
    case Releasing(b, _) => b
    case _ => []
  }

  function Disturb(h: History): History { h.(undisturbed := false) }

  /** A flush begins: everything is refused from now on. */
  function Raise(s: State): State {
    var f := s.f.(flushing := true, begun := s.f.begun + 1, phase := Begun, raced := s.f.raced || ResetInFlight(s));
    s.(f := f, hr := if s.hr == S_OK then S_FALSE else s.hr, h := Disturb(s.h))
  }

  /** The locked part of BeginFlush. */
  function BeginFlush(c: Config, s: State): State {
    var s := Raise(s);
    if s.f.flushed && c.flushingOpt then s else Notify(s.(f := s.f.(event := false)))
  }

  /** The locked part of EndFlush, with its early return. */
  function EndFlush(c: Config, s: State): State {
    if c.flushingOpt && s.f.flushed then
      s.(f := s.f.(flushing := false, phase := NotFlushing, completed := s.f.begun), hr := S_OK)
    else s.(f := s.f.(phase := Waiting))
  }

  /** The destructor's critical section. */
  function Terminate(s: State): State {
    Notify(s.(terminate := true, hr := S_FALSE, h := Disturb(s.h)))
  }

  // ---- The worker ----

  function SamplesIn(list: seq<Item>): seq<Media> {
    if list == [] then []
    else ItemSamples(list[0]) + SamplesIn(list[1..])
  }

  function ItemSamples(x: Item): seq<Media> {
    match x
    case Sample(m) => [m]
    case _ => []
  }

  /** FreeSamples: everything queued or batched is released or deleted. */
  function FreeSamples(s: State): State {
    s.(list := [], batch := [],
       h := s.h.(released := s.h.released + multiset(SamplesIn(s.list)) + multiset(s.batch)))
  }

  /** Every marker is followed by its parameters, and no parameters stand alone. */
  predicate Paired(list: seq<Item>) {
    list == [] ||
    match list[0]
    case NewSegmentMark => |list| > 1 && list[1].SegmentParams? && Paired(list[2..])
    case SegmentParams(_) => false
    case _ => Paired(list[1..])
  }

  /** How the worker's inner loop ends: with nothing to do, or with a batch and
      perhaps a control packet. */
  datatype Collected = Idle(batch: seq<Media>) | Batch(batch: seq<Media>, ctl: Control, list: seq<Item>)

  function Collect(c: Config, list: seq<Item>, batch: seq<Media>): Collected
    requires Paired(list)
  {
    if list == [] then
      if c.batchExact || batch == [] then Idle(batch) else Batch(batch, NoControl, [])
    else
      match list[0]
      case Sample(m) =>
        if |batch| + 1 == c.batchSize then Batch(batch + [m], NoControl, list[1..])
        else Collect(c, list[1..], batch + [m])
      case SendPacket => if batch == [] then Collect(c, list[1..], batch) else Batch(batch, DoSend, list[1..])
      case EosPacket => Batch(batch, DoEos, list[1..])
      case ResetPacket => Batch(batch, DoReset, list[1..])
      case NewSegmentMark => Batch(batch, DoSegment(list[1].p), list[2..])
  }

  /** The worker's inner loop, and what it leaves for the rest of the turn. */
  function Gather(c: Config, s: State): State
    requires Paired(s.list)
  {
    match Collect(c, s.list, s.batch)
    case Idle(batch) => s.(list := [], batch := batch, lWaiting := s.lWaiting + 1, worker := Parked)
    case Batch(batch, ctl, list) => s.(list := list, batch := [], worker := Sending(batch, ctl))
  }

  /** The worker's critical section. */
  function Take(c: Config, s: State): State
    requires Paired(s.list)
  {
    if s.terminate then FreeSamples(s).(worker := Exited)
    else if s.f.flushing then Gather(c, FreeSamples(s).(f := s.f.(event := true)))
    else Gather(c, s)
  }

  function LogDeliveries(ms: seq<Media>, completed: nat): seq<Delivery> {
    if ms == [] then [] else [Delivery(ms[0], completed)] + LogDeliveries(ms[1..], completed)
  }

  /** The worker looks at m_hr, without the lock, and calls ReceiveMultiple. */
  function BeginSend(s: State): State
    requires s.worker.Sending?
  {
    var b, ctl := s.worker.batch, s.worker.ctl;
    if b == [] then s.(worker := Controlling(ctl))
    else if s.hr == S_OK then
      s.(worker := Delivering(b, ctl),
         h := s.h.(sent := s.h.sent + Deliveries(b),
                   deliveries := s.h.deliveries + LogDeliveries(b, s.f.completed)))
    else s.(worker := Releasing(b, ctl))
  }

  /** ReceiveMultiple returns; the first failure sticks. */
  function EndSend(s: State, hr: HResult): State
    requires s.worker.Delivering?
  {
    s.(worker := Releasing(s.worker.batch, s.worker.ctl), hr := if s.hr == S_OK then hr else s.hr,
       h := s.h.(undisturbed := s.h.undisturbed && hr == S_OK))
  }

  function Release(s: State): State
    requires s.worker.Releasing?
  {
    s.(worker := Controlling(s.worker.ctl), h := s.h.(released := s.h.released + multiset(s.worker.batch)))
  }

  function Send(s: State, e: Event): State { s.(h := s.h.(sent := s.h.sent + [e])) }

  function ActOnControl(s: State): State
    requires s.worker.Controlling?
  {
    var t := s.(worker := Top);
    match s.worker.ctl
    case DoEos => if s.hr == S_OK then Send(t, EndOfStream) else t
    case DoReset => t.(hr := S_OK, f := s.f.(event := true))
    case DoSegment(p) => Send(t, NewSegment(p))
    case _ => t
  }

  // ---- Runs ----

  datatype Action =
    | AReceive(ids: seq<nat>)
    | AEos
    | ANewSegment(hrSeen: HResult, p: Segment)
    | ASendAnyway
    | AReset
    | AResetDone
    | ABeginFlush
    | AEndFlush
    | AFlushWaited
    | AClearFlushing
    | ASetFlushed
    | AClearResult
    | ATerminate
    | WTake
    | WWake
    | WBeginSend
    | WEndSend(hr: HResult)
    | WRelease
    | WControl

  predicate ClientAction(a: Action) {
    a.AReceive? || a.AEos? || a.ANewSegment? || a.ASendAnyway? || a.AReset? || a.ABeginFlush? || a.ATerminate?
  }

  predicate WorkerAction(a: Action) {
    a.WTake? || a.WWake? || a.WBeginSend? || a.WEndSend? || a.WRelease? || a.WControl?
  }

  /** When a step can happen. The one flushing thread pairs its calls, and
      nobody calls in once the destructor runs. */
  predicate Enabled(s: State, a: Action) {
    && (ClientAction(a) ==> !s.terminate)
    && match a
       case AResetDone => s.f.resetters > 0 && s.f.event
       case ABeginFlush => s.f.phase == NotFlushing
       case AEndFlush => s.f.phase == Begun
       case AFlushWaited => s.f.phase == Waiting && s.f.event
       case AClearFlushing => s.f.phase == Waited
       case ASetFlushed => s.f.phase == Unflagged
       case AClearResult => s.f.phase == Reflagged
       case WTake => s.worker == Top
       case WWake => s.worker == Parked && s.sem > 0
       case WBeginSend => s.worker.Sending?
       case WEndSend(_) => s.worker.Delivering?
       case WRelease => s.worker.Releasing?
       case WControl => s.worker.Controlling?
       case _ => true
  }

  function Step(c: Config, s: State, a: Action): State
    requires Enabled(s, a) && Paired(s.list)
  {
    match a
    case AReceive(ids) => Receive(c, s, ids)
    case AEos => Eos(s)
    case ANewSegment(hrSeen, p) => QueueSegment(s, hrSeen, p)
    case ASendAnyway => SendAnyway(s)
    case AReset => Reset(s)
    case AResetDone => s.(f := s.f.(resetters := s.f.resetters - 1, event := false))
    case ABeginFlush => BeginFlush(c, s)
    case AEndFlush => EndFlush(c, s)
    case AFlushWaited => s.(f := s.f.(phase := Waited, event := false))
    case AClearFlushing => s.(f := s.f.(phase := Unflagged, flushing := false))
    case ASetFlushed => s.(f := s.f.(phase := Reflagged, flushed := true))
    case AClearResult => s.(f := s.f.(phase := NotFlushing, completed := s.f.begun), hr := S_OK)
    case ATerminate => Terminate(s)
    case WTake => Take(c, s)
    case WWake => s.(sem := s.sem - 1, worker := Top)
    case WBeginSend => BeginSend(s)
    case WEndSend(hr) => EndSend(s, hr)
    case WRelease => Release(s)
    case WControl => ActOnControl(s)
  }

  ghost predicate CanStep(c: Config, s: State, a: Action, t: State) {
    Enabled(s, a) && (Paired(s.list) ==> t == Step(c, s, a))
  }

  ghost predicate IsRun(c: Config, acts: seq<Action>, ss: seq<State>) {
    && c.Valid() && |ss| == |acts| + 1 && ss[0] == Start()
    && forall i :: 0 <= i < |acts| ==> CanStep(c, ss[i], acts[i], ss[i + 1])
  }
}
