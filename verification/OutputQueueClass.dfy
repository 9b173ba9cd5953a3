/** COutputQueue's fields and critical sections as the code writes them, each
    proved to be the step of the model. */
module OutputQueueClass {
  import opened OutputQueue

  /** What one turn of FreeSamples' first loop takes off the list. */
  lemma {:induction false} FreedMore(freed: seq<Media>, list: seq<Item>)
    requires list != [] && Paired(list)
    ensures var rest := if list[0] == NewSegmentMark then list[2..] else list[1..];
            freed + SamplesIn(list) == (freed + ItemSamples(list[0])) + SamplesIn(rest)
  {
    if list[0] == NewSegmentMark {
      assert list[1..][0] == list[1] && list[1..][1..] == list[2..];
      assert SamplesIn(list[1..]) == [] + SamplesIn(list[2..]);
    }
  }

  class COutputQueue {
    const config: Config
    var list: seq<Item>          // m_List
    var samples: array<Media>    // m_ppSamples
    var nBatched: nat
    var hr: HResult
    var terminate: bool
    var lWaiting: nat
    var sem: nat                 // the count of m_hSem
    var flushing: bool
    var flushed: bool
    var flushEvent: bool         // m_evFlushComplete, auto-reset

    ghost var worker: Worker
    ghost var protocol: Flush    // the flushing and resetting clients
    ghost var h: History

    ghost predicate Valid()
      reads this, samples
    {
      && config.Valid()
      && samples.Length == config.batchSize && nBatched < config.batchSize
      && protocol.flushing == flushing && protocol.flushed == flushed && protocol.event == flushEvent
    }

    ghost function Abs(): State
      requires Valid()
      reads this, samples
    {
      State(list, samples[..nBatched], hr, terminate, lWaiting, sem, worker, protocol, h)
    }

    constructor (config: Config)
      requires config.Valid()
      ensures Valid() && this.config == config && fresh(samples)
      ensures Abs() == Start()
    {
      this.config := config;
      samples := new Media[config.batchSize](_ => Media(0, 0));
      list, nBatched, hr, terminate, lWaiting, sem := [], 0, S_OK, false, 0, 0;
      flushing, flushed, flushEvent := false, true, false;
      worker, protocol, h := Start().worker, Start().f, Start().h;
    }

    /** NotifyThread: no call to the system unless the worker waits. */
    method NotifyThread()
      requires Valid()
      modifies this`sem, this`lWaiting
      ensures Valid() && Abs() == Notify(old(Abs()))
      ensures lWaiting == 0 && sem == old(sem) + old(lWaiting)
    {
      if lWaiting != 0 {
        sem := sem + lWaiting;
        lWaiting := 0;
      }
    }

    method QueueSample(item: Item)
      requires Valid()
      modifies this`list
      ensures Valid() && list == old(list) + [item]
    {
      list := list + [item];
    }

    /** ReceiveMultiple, in queued mode, for samples marked with this epoch. */
    method ReceiveMultiple(ms: seq<Media>, ghost ids: seq<nat>) returns (result: HResult, processed: nat)
      requires Valid() && ms == Wrap(ids, protocol.begun)
      modifies this`list, this`flushed, this`protocol, this`h, this`sem, this`lWaiting
      ensures Valid() && Abs() == Receive(config, old(Abs()), ids)
      ensures h.given == old(h).given + multiset(ms)
      ensures if hr == S_OK then
                && list == old(list) + Samples(ms) && h.accepted == old(h).accepted + Deliveries(ms)
                && h.released == old(h).released && !flushed
              else
                && list == old(list) && h.accepted == old(h).accepted && h.released == old(h).released + multiset(ms)
      ensures hr == S_OK && (!config.batchExact || nBatched + |list| >= config.batchSize) ==> lWaiting == 0
      ensures result == hr == old(hr) && processed == if hr == S_OK then |ms| else 0
    {
      result := hr;
      processed := if hr == S_OK then |ms| else 0;
      h := h.(given := h.given + multiset(ms));
      if hr != S_OK {
        h := h.(released := h.released + multiset(ms));
      } else {
        AcceptAll(ms);
        NotifyForBatch();
      }
    }

    /** Wakes the worker unless it waits for a whole batch, and there is none. */
    method NotifyForBatch()
      requires Valid()
      modifies this`sem, this`lWaiting
      ensures Valid()
      ensures Abs() == if !config.batchExact || nBatched + |list| >= config.batchSize then Notify(old(Abs())) else old(Abs())
    {
      if !config.batchExact || nBatched + |list| >= config.batchSize {
        NotifyThread();
      }
    }

    method AcceptAll(ms: seq<Media>)
      requires Valid()
      modifies this`list, this`flushed, this`protocol, this`h
      ensures Valid() && Abs() == AcceptSamples(old(Abs()), ms)
    {
      flushed := false;
      protocol := protocol.(flushed := false);
      h := h.(accepted := h.accepted + Deliveries(ms));
      QueueAll(ms);
    }

    /** The loop that queues an array of samples one by one. */
    method QueueAll(ms: seq<Media>)
      requires Valid()
      modifies this`list
      ensures Valid() && list == old(list) + Samples(ms)
    {
      assert ms[..0] == [];
      for i := 0 to |ms|
        invariant Valid() && list == old(list) + Samples(ms[..i])
      {
        QueueSample(Sample(ms[i]));
        SamplesSnoc(ms[..i], ms[i]);
        assert ms[..i + 1] == ms[..i] + [ms[i]];
      }
      assert ms[..|ms|] == ms;
    }

    method EOS()
      requires Valid()
      modifies this`list, this`flushed, this`protocol, this`h, this`sem, this`lWaiting
      ensures Valid() && Abs() == Eos(old(Abs()))
      ensures if hr == S_OK then list == old(list) + [EosPacket] && lWaiting == 0 && !flushed else list == old(list)
    {
      if hr == S_OK {
        flushed := false;
        protocol := protocol.(flushed := false);
        h := h.(accepted := h.accepted + [EndOfStream]);
        QueueSample(EosPacket);
        NotifyThread();
      }
    }

    /** NewSegment: a marker, and then its parameters, in one critical section. */
    method QueueNewSegment(hrSeen: HResult, p: Segment)
      requires Valid()
      modifies this`list, this`h, this`sem, this`lWaiting
      ensures Valid() && Abs() == QueueSegment(old(Abs()), hrSeen, p)
      ensures if hrSeen == S_OK then list == old(list) + [NewSegmentMark, SegmentParams(p)] && lWaiting == 0
              else list == old(list)
    {
      if hrSeen == S_OK {
        h := h.(accepted := h.accepted + [NewSegment(p)]);
        QueueSample(NewSegmentMark);
        QueueSample(SegmentParams(p));
        assert list == old(list) + [NewSegmentMark, SegmentParams(p)];
        NotifyThread();
      }
    }

    method QueueSendAnyway()
      requires Valid()
      modifies this`list, this`sem, this`lWaiting
      ensures Valid() && Abs() == SendAnyway(old(Abs()))
      ensures list == old(list) + [SendPacket] && lWaiting == 0 && sem == old(sem) + old(lWaiting)
    {
      QueueSample(SendPacket);
      NotifyThread();
    }

    /** The locked part of BeginFlush. */
    method StartFlush()
      requires Valid() && protocol.phase == NotFlushing
      modifies this`flushing, this`hr, this`flushEvent, this`protocol, this`h, this`sem, this`lWaiting
      ensures Valid() && Abs() == BeginFlush(config, old(Abs()))
      ensures flushing && hr != S_OK && (old(hr) != S_OK ==> hr == old(hr))
      ensures !(flushed && config.flushingOpt) ==> !flushEvent && lWaiting == 0
    {
      Refuse();
      if !(flushed && config.flushingOpt) {
        flushEvent := false;
        protocol := protocol.(event := false);
        NotifyThread();
      }
    }

    /** Makes sure everything is refused from now on. */
    method Refuse()
      requires Valid()
      modifies this`flushing, this`protocol, this`hr, this`h
      ensures Valid() && Abs() == Raise(old(Abs()))
    {
      protocol := protocol.(flushing := true, begun := protocol.begun + 1, phase := Begun,
                            raced := protocol.raced || ResetInFlight(Abs()));
      flushing := true;
      if hr == S_OK {
        hr := S_FALSE;
      }
      h := Disturb(h);
    }

    /** The destructor's critical section. */
    method Stop()
      requires Valid()
      modifies this`terminate, this`hr, this`h, this`sem, this`lWaiting
      ensures Valid() && Abs() == Terminate(old(Abs()))
      ensures terminate && hr == S_FALSE && lWaiting == 0 && sem == old(sem) + old(lWaiting)
    {
      terminate := true;
      hr := S_FALSE;
      h := Disturb(h);
      NotifyThread();
    }

    method RemoveHead() returns (item: Item)
      requires Valid() && list != []
      modifies this`list
      ensures Valid() && item == old(list)[0] && list == old(list)[1..]
    {
      item := list[0];
      list := list[1..];
    }

    /** FreeSamples' first loop: empties the list. */
    method FreeList() returns (ghost freed: seq<Media>)
      requires Valid() && Paired(list)
      modifies this`list
      ensures Valid() && list == [] && freed == SamplesIn(old(list))
    {
      freed := [];
      while list != []
        invariant Valid() && Paired(list)
        invariant SamplesIn(old(list)) == freed + SamplesIn(list)
        decreases |list|
      {
        ghost var before := list;
        var item := RemoveHead();
        FreedMore(freed, before);
        freed := freed + ItemSamples(item);
        if item == NewSegmentMark {
          var params := RemoveHead();
        }
      }
    }

    /** Its second loop: releases the batch. */
    method FreeBatch() returns (ghost freed: seq<Media>)
      requires Valid()
      ensures freed == samples[..nBatched]
    {
      freed := [];
      for i := 0 to nBatched
        invariant freed == samples[..i]
      {
        freed := freed + [samples[i]];
      }
    }

    /** FreeSamples. */
    method FreeAll()
      requires Valid() && Paired(list)
      modifies this`list, this`nBatched, this`h
      ensures Valid() && Abs() == FreeSamples(old(Abs()))
      ensures list == [] && nBatched == 0
      ensures h.released == old(h).released + multiset(SamplesIn(old(list))) + multiset(old(samples[..nBatched]))
    {
      ghost var goal := FreeSamples(Abs());
      ghost var queued := FreeList();
      ghost var batched := FreeBatch();
      h := h.(released := h.released + multiset(queued) + multiset(batched));
      assert h == goal.h;
      nBatched := 0;
      assert samples[..nBatched] == goal.batch;
    }

    /** The worker's inner loop: gathers a batch, up to a control packet. The
        batch may be full afterwards. */
    method CollectBatch() returns (bWait: bool, ctl: Control)
      requires Valid() && Paired(list)
      modifies this`list, this`nBatched, samples
      ensures nBatched <= samples.Length && (bWait ==> nBatched < samples.Length)
      ensures Gathered(Collect(config, old(list), old(samples[..nBatched])), bWait, ctl)
    {
      bWait, ctl := false, NoControl;
      ghost var goal := Collect(config, list, samples[..nBatched]);
      while true
        invariant nBatched < samples.Length && Paired(list)
        invariant goal == Collect(config, list, samples[..nBatched])
        decreases |list|
      {
        if list == [] {
          bWait := config.batchExact || nBatched == 0;
          return;
        }
        var item := list[0];
        list := list[1..];
        if item.Sample? {
          ghost var batch := samples[..nBatched];
          samples[nBatched] := item.m;
          nBatched := nBatched + 1;
          assert samples[..nBatched] == batch + [item.m];
          if nBatched == config.batchSize { return; }
        } else if item != SendPacket || nBatched != 0 {
          ctl := ControlOf(item);
          if item == NewSegmentMark {
            ctl := DoSegment(list[0].p);
            list := list[1..];
          }
          return;
        }
      }
    }

    /** What CollectBatch has left in the fields. */
    ghost predicate Gathered(r: Collected, bWait: bool, ctl: Control)
      requires nBatched <= samples.Length
      reads this, samples
    {
      match r
      case Idle(b) => bWait && samples[..nBatched] == b && list == []
      case Batch(b, c, rest) => !bWait && samples[..nBatched] == b && list == rest && ctl == c
    }

    /** Gathers a batch, and says what to do with it. The batch to send stays in
        the array; nBatched is zero again, because the client looks at it. */
    method GatherBatch() returns (bWait: bool, lNumberToSend: nat, ctl: Control)
      requires Valid() && Paired(list)
      modifies this`list, this`nBatched, this`lWaiting, this`worker, samples
      ensures Valid() && Abs() == Gather(config, old(Abs()))
      ensures bWait <==> worker == Parked
      ensures !bWait ==> lNumberToSend <= samples.Length && worker == Sending(samples[..lNumberToSend], ctl)
    {
      bWait, ctl := CollectBatch();
      lNumberToSend := nBatched;
      if bWait {
        lWaiting := lWaiting + 1;
        worker := Parked;
      } else {
        nBatched := 0;
        worker := Sending(samples[..lNumberToSend], ctl);
        assert samples[..0] == [];
      }
    }

    /** ThreadProc's critical section. */
    method TakeBatch() returns (bWait: bool, lNumberToSend: nat, ctl: Control)
      requires Valid() && Paired(list) && worker == Top
      modifies this`list, this`nBatched, this`h, this`flushEvent, this`protocol, this`lWaiting, this`worker, samples
      ensures Valid() && Abs() == Take(config, old(Abs()))
      ensures worker.Sending? ==> lNumberToSend <= samples.Length && worker == Sending(samples[..lNumberToSend], ctl)
    {
      bWait, lNumberToSend, ctl := false, 0, NoControl;
      if terminate {
        FreeAll();
        worker := Exited;
      } else {
        if flushing {
          FreeAll();
          SignalFlushed();
        }
        bWait, lNumberToSend, ctl := GatherBatch();
      }
    }

    method SignalFlushed()
      requires Valid()
      modifies this`flushEvent, this`protocol
      ensures Valid() && Abs() == old(Abs()).(f := old(protocol).(event := true))
    {
      flushEvent := true;
      protocol := protocol.(event := true);
    }

    // ---- The rest of EndFlush, Reset, and the worker outside its critical section ----

    /** The locked part of EndFlush; `done` is its early return. */
    method CheckFlushed() returns (done: bool)
      requires Valid() && protocol.phase == Begun
      modifies this`flushing, this`hr, this`protocol
      ensures Valid() && Abs() == EndFlush(config, old(Abs()))
      ensures done <==> protocol.phase == NotFlushing
      ensures done <==> config.flushingOpt && flushed
      ensures done ==> !flushing && hr == S_OK
    {
      done := config.flushingOpt && flushed;
      if done {
        protocol := protocol.(flushing := false, phase := NotFlushing, completed := protocol.begun);
        flushing, hr := false, S_OK;
      } else {
        protocol := protocol.(phase := Waiting);
      }
    }

    /** EndFlush after its locked part: the wait returns, and three fields are written
        outside the lock. This is the sequence; the model lets the worker in between. */
    method CompleteFlush()
      requires Valid() && protocol.phase == Waiting && flushEvent
      modifies this`flushEvent, this`flushing, this`flushed, this`hr, this`protocol
      ensures Valid() && Abs() == AfterFlush(old(Abs()))
      ensures !flushing && flushed && !flushEvent && hr == S_OK
    {
      flushEvent := false;
      protocol := protocol.(phase := Waited, event := false);
      flushing := false;
      protocol := protocol.(phase := Unflagged, flushing := false);
      flushed := true;
      protocol := protocol.(phase := Reflagged, flushed := true);
      hr := S_OK;
      protocol := protocol.(phase := NotFlushing, completed := protocol.begun);
    }

    /** The locked part of Reset. */
    method QueueReset()
      requires Valid()
      modifies this`list, this`protocol, this`sem, this`lWaiting
      ensures Valid() && Abs() == OutputQueue.Reset(old(Abs()))
      ensures list == old(list) + [ResetPacket] && lWaiting == 0 && sem == old(sem) + old(lWaiting)
    {
      protocol := protocol.(resetters := protocol.resetters + 1,
                            raced := protocol.raced || protocol.phase != NotFlushing);
      QueueSample(ResetPacket);
      NotifyThread();
    }

    /** The worker looks at m_hr and, if it is S_OK, hands the batch downstream. */
    method HandOver(lNumberToSend: nat, ctl: Control) returns (delivering: bool)
      requires Valid() && lNumberToSend <= samples.Length && worker == Sending(samples[..lNumberToSend], ctl)
      modifies this`worker, this`h
      ensures Valid() && Abs() == BeginSend(old(Abs()))
      ensures delivering <==> lNumberToSend > 0 && hr == S_OK
      ensures h.sent == old(h).sent + if delivering then Deliveries(samples[..lNumberToSend]) else []
      ensures lNumberToSend > 0 ==> worker == if hr == S_OK then Delivering(samples[..lNumberToSend], ctl)
                                              else Releasing(samples[..lNumberToSend], ctl)
    {
      delivering := false;
      ghost var batch := samples[..lNumberToSend];
      if lNumberToSend == 0 {
        worker := Controlling(ctl);
      } else if hr == S_OK {
        delivering := true;
        worker := Delivering(batch, ctl);
        h := h.(sent := h.sent + Deliveries(batch), deliveries := h.deliveries + LogDeliveries(batch, protocol.completed));
      } else {
        worker := Releasing(batch, ctl);
      }
    }

    /** ReceiveMultiple has returned; a flushing result is not overwritten. */
    method KeepResult(result: HResult)
      requires Valid() && worker.Delivering?
      modifies this`hr, this`worker, this`h
      ensures Valid() && Abs() == EndSend(old(Abs()), result)
      ensures hr == if old(hr) == S_OK then result else old(hr)
    {
      if hr == S_OK {
        hr := result;
      }
      worker := Releasing(worker.batch, worker.ctl);
      h := h.(undisturbed := h.undisturbed && result == S_OK);
    }

    /** The loop that releases the batch, the last sample first. */
    method ReleaseBatch(lNumberToSend: nat, ctl: Control)
      requires Valid() && lNumberToSend <= samples.Length && worker == Releasing(samples[..lNumberToSend], ctl)
      modifies this`worker, this`h
      ensures Valid() && Abs() == Release(old(Abs()))
    {
      ghost var batch := samples[..lNumberToSend];
      ghost var gone: multiset<Media> := multiset{};
      var n := lNumberToSend;
      while n != 0
        invariant n <= lNumberToSend && gone == multiset(batch[n..])
      {
        n := n - 1;
        assert batch[n..] == [samples[n]] + batch[n + 1..];
        gone := gone + multiset{samples[n]};
      }
      assert batch[0..] == batch;
      h := h.(released := h.released + gone);
      worker := Controlling(ctl);
    }

    /** The control packet that ended the batch. */
    method ActOn(ctl: Control)
      requires Valid() && worker == Controlling(ctl)
      modifies this`hr, this`flushEvent, this`protocol, this`worker, this`h
      ensures Valid() && Abs() == ActOnControl(old(Abs()))
      ensures h.sent == old(h).sent + (if ctl == DoEos && old(hr) == S_OK then [EndOfStream]
                                       else if ctl.DoSegment? then [NewSegment(ctl.p)] else [])
      ensures if ctl == DoReset then hr == S_OK && flushEvent else hr == old(hr) && flushEvent == old(flushEvent)
    {
      worker := Top;
      if ctl == DoEos && hr == S_OK {
        h := h.(sent := h.sent + [EndOfStream]);
      }
      if ctl == DoReset {
        hr, flushEvent := S_OK, true;
        protocol := protocol.(event := true);
      }
      if ctl.DoSegment? {
        h := h.(sent := h.sent + [NewSegment(ctl.p)]);
      }
    }

    /** IsIdle, with its assertion as a condition the invariants establish. */
    method CheckIdle() returns (idle: bool)
      requires Valid() && !config.batchExact && (lWaiting != 0 ==> list == [])
      ensures idle <==> lWaiting != 0 && nBatched == 0
      ensures idle ==> list == []
    {
      if lWaiting == 0 || nBatched != 0 {
        idle := false;
      } else {
        assert |list| == 0;
        idle := true;
      }
    }
  }

  /** What EndFlush leaves when it returns after its wait. */
  function AfterFlush(s: State): State {
    s.(f := s.f.(flushing := false, flushed := true, event := false, phase := NotFlushing, completed := s.f.begun), hr := S_OK)
  }

  /** That is what its four steps come to when nothing falls between them. */
  lemma {:induction false} FourSteps(c: Config, s: State, waited: State, cleared: State, marked: State, done: State)
    requires Paired(s.list) && CanStep(c, s, AFlushWaited, waited) && CanStep(c, waited, AClearFlushing, cleared)
    requires CanStep(c, cleared, ASetFlushed, marked) && CanStep(c, marked, AClearResult, done)
    ensures done == AfterFlush(s)
  {
    assert waited == s.(f := s.f.(phase := Waited, event := false));
    assert cleared == s.(f := s.f.(phase := Unflagged, event := false, flushing := false));
    assert marked == s.(f := s.f.(phase := Reflagged, event := false, flushing := false, flushed := true));
  }

  /** The control packets with no parameters. */
  function ControlOf(x: Item): Control {
    match x
    case SendPacket => DoSend
    case EosPacket => DoEos
    case ResetPacket => DoReset
    case _ => NoControl
  }

  lemma {:induction false} SamplesSnoc(ms: seq<Media>, m: Media)
    ensures Samples(ms + [m]) == Samples(ms) + [Sample(m)]
  {
    if ms == [] {
    } else {
      assert (ms + [m])[1..] == ms[1..] + [m];
      SamplesSnoc(ms[1..], m);
    }
  }
}
