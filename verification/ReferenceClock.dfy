/** CBaseReferenceClock: the advise thread that sleeps until the next deadline,
    beside clients that add and cancel advises and adjust the clock
    (external/baseclasses/refclock.cpp). */
module ReferenceClock {
  import opened AdviseList
  import opened MachineWords
  import opened Options
  import opened Schedule

  const UNITS_PER_MS := 10000
  const UINT_MAX := 0xFFFF_FFFF

  /** What WaitForSingleObject makes of dwWait: the largest value means forever. */
  datatype Wait = Forever | Ms(ms: nat)

  /** dwWait for a next advise time, computed at time `now`. */
  function WaitFor(next: int, now: int): Wait
    requires next >= now
  {
    var llWait := (next - now) / UNITS_PER_MS;
    var dwWait := if llWait > UINT_MAX then UINT_MAX else llWait;
    if dwWait == UINT_MAX then Forever else Ms(dwWait)
  }

  /** Where the advise thread is: in its wait, past it, or with the time it has read,
      before and after its call of Advise. */
  datatype Thread = Sleeping(wait: Wait) | Woken | Timed(rtNow: int) | Advised(rtNow: int)

  /** The clock, its schedule and its thread. `now` is the internal time, `adjusting`
      the delta of a SetTimeDelta between its two accesses, both under the clock's
      lock. Since the thread last read the time: `since` is what it read, `lag` the
      milliseconds until it went to sleep, `slept` those in its sleep, and `drift`
      the adjustments. */
  datatype Clock = Clock(list: seq<Packet>, nextCookie: nat, eventSet: bool, now: int, nextAdvise: int,
                         thread: Thread, adjusting: Option<int>, since: int, lag: nat, slept: nat, drift: int)

  datatype Action =
    | AddAdvise(time: int, period: int, notify: int, periodic: bool)
    | CancelAdvise(cookie: nat)
    | AdjustTime(delta: int)
    | TriggerThread
    | Tick(ms: nat)
    | Wake
    | ReadTime
    | Serve
    | Sleep

  /** Before its first wake-up the thread waits for the event only. */
  function Start(now: int): Clock {
    Clock([], 0, false, now, MAX_TIME, Sleeping(Forever), None, now, 0, 0, 0)
  }

  /** When an action can happen. Clients pass the checks of AdviseTime and
      AdvisePeriodic. A set event or an elapsed wait lets the thread wake; it may
      oversleep. Serve assumes that times stay below MAX_TIME. */
  predicate Enabled(c: Clock, a: Action)
    requires Progressing(c.list)
  {
    match a
    case AddAdvise(time, period, _, periodic) => 0 < time < MAX_TIME && (periodic ==> period > 0)
    case CancelAdvise(_) => true
    case AdjustTime(_) => c.adjusting == None
    case TriggerThread => c.adjusting.Some?
    case Tick(_) => true
    case Wake => c.thread.Sleeping? && (c.eventSet || (c.thread.wait.Ms? && c.slept >= c.thread.wait.ms))
    case ReadTime => c.thread == Woken && c.adjusting == None
    case Serve =>
      && c.thread.Timed? && c.thread.rtNow + UNITS_PER_MS <= MAX_TIME
      && StaysBelowMaxTime(c.list, c.thread.rtNow + UNITS_PER_MS)
    case Sleep => c.thread.Advised?
  }

  /** The schedule is in order. From its call of Advise until it wakes, the thread
      knows a next advise no later than the head, or has an event waiting for it;
      and its wait ends at or before that advise, unless it is forever. */
  predicate Inv(c: Clock) { ListOk(c.list, c.nextCookie) && ThreadOk(c) }

  predicate ThreadOk(c: Clock) {
    match c.thread
    case Woken => true
    case Timed(rtNow) => c.now == rtNow + c.lag * UNITS_PER_MS + c.drift
    case Advised(rtNow) =>
      && c.now == rtNow + c.lag * UNITS_PER_MS + c.drift
      && (c.eventSet || c.nextAdvise <= HeadTime(c.list))
      && (c.nextAdvise > rtNow + UNITS_PER_MS || c.nextAdvise == MAX_TIME >= rtNow + UNITS_PER_MS)
    case Sleeping(wait) =>
      && c.now == c.since + (c.lag + c.slept) * UNITS_PER_MS + c.drift
      && (c.eventSet || c.nextAdvise <= HeadTime(c.list))
      && (wait.Ms? ==> 1 <= wait.ms && c.since + wait.ms * UNITS_PER_MS <= c.nextAdvise)
      && (wait.Forever? ==> c.nextAdvise == MAX_TIME || c.nextAdvise - c.since >= UINT_MAX * UNITS_PER_MS)
  }

  function Step(c: Clock, a: Action): Clock
    requires Inv(c) && Enabled(c, a)
  {
    match a
    case AddAdvise(time, period, notify, periodic) =>
      c.(list := Add(c.list, Packet(c.nextCookie + 1, time, period, notify, periodic)),
         nextCookie := c.nextCookie + 1,
         eventSet := c.eventSet || Slot(c.list, time, false) == 0)
    case CancelAdvise(cookie) => c.(list := Remove(c.list, cookie))
    case AdjustTime(delta) => c.(now := c.now + delta, drift := c.drift + delta, adjusting := Some(delta))
    case TriggerThread => c.(eventSet := c.eventSet || (c.adjusting.value > 5000 && |c.list| > 0), adjusting := None)
    case Tick(ms) =>
      var d := c.(now := c.now + ms * UNITS_PER_MS);
      if c.thread.Sleeping? then d.(slept := c.slept + ms) else d.(lag := c.lag + ms)
    case Wake => c.(eventSet := false, thread := Woken)
    case ReadTime => c.(thread := Timed(c.now), since := c.now, lag := 0, slept := 0, drift := 0)
    case Serve =>
      var list := AdviseList.Advise(c.list, c.thread.rtNow + UNITS_PER_MS).list;
      c.(list := list, nextAdvise := HeadTime(list), thread := Advised(c.thread.rtNow))
    case Sleep => c.(thread := Sleeping(WaitFor(c.nextAdvise, c.thread.rtNow)), since := c.thread.rtNow, slept := 0)
  }

  lemma {:induction false} StepKeepsInv(c: Clock, a: Action, d: Clock)
    requires Inv(c) && CanStep(c, a, d)
    ensures Inv(d)
  {
    match a
    case AddAdvise(_, _, _, _) => AddKeepsInv(c, a, d);
    case CancelAdvise(cookie) => RemoveOk(c.list, cookie, c.nextCookie);
    case Tick(ms) => TickKeepsInv(c, ms);
    case Serve => ServeKeepsInv(c, d);
    case Sleep => SleepKeepsInv(c);
    case _ =>
  }

  lemma {:induction false} AddKeepsInv(c: Clock, a: Action, d: Clock)
    requires Inv(c) && CanStep(c, a, d) && a.AddAdvise?
    ensures Inv(d)
  {
    AddStep(c, a, d);
    var p := Packet(c.nextCookie + 1, a.time, a.period, a.notify, a.periodic);
    AddOk(c.list, p, c.nextCookie);
    Added(c, d, p);
  }

  lemma {:induction false} AddStep(c: Clock, a: Action, d: Clock)
    requires Inv(c) && CanStep(c, a, d) && a.AddAdvise?
    ensures ListOk(c.list, c.nextCookie) && ThreadOk(c) && 0 < a.time < MAX_TIME && (a.periodic ==> a.period > 0)
    ensures d == c.(list := Add(c.list, Packet(c.nextCookie + 1, a.time, a.period, a.notify, a.periodic)),
                    nextCookie := c.nextCookie + 1, eventSet := c.eventSet || Slot(c.list, a.time, false) == 0)
  {
  }

  /** A new head is announced by the event. */
  lemma {:induction false} Added(c: Clock, d: Clock, p: Packet)
    requires ThreadOk(c) && ListOk(d.list, d.nextCookie)
    requires HeadTime(d.list) == if Slot(c.list, p.time, false) == 0 then p.time else HeadTime(c.list)
    requires d == c.(list := d.list, nextCookie := c.nextCookie + 1,
                     eventSet := c.eventSet || Slot(c.list, p.time, false) == 0)
    ensures Inv(d)
  {
  }

  lemma {:induction false} TickKeepsInv(c: Clock, ms: nat)
    requires Inv(c) && Enabled(c, Tick(ms))
    ensures Inv(Step(c, Tick(ms)))
  {
  }

  lemma {:induction false} ServeKeepsInv(c: Clock, d: Clock)
    requires Inv(c) && CanStep(c, Serve, d)
    ensures Inv(d)
  {
    ServeStep(c, d);
    ServedOk(c, d, c.thread.rtNow);
  }

  lemma {:induction false} ServeStep(c: Clock, d: Clock)
    requires Inv(c) && CanStep(c, Serve, d)
    ensures c.thread.Timed? && ListOk(c.list, c.nextCookie) && ThreadOk(c)
    ensures var rtNow := c.thread.rtNow;
            && rtNow + UNITS_PER_MS <= MAX_TIME && StaysBelowMaxTime(c.list, rtNow + UNITS_PER_MS)
            && d.list == AdviseList.Advise(c.list, rtNow + UNITS_PER_MS).list
            && d == c.(list := d.list, nextAdvise := HeadTime(d.list), thread := Advised(rtNow))
  {
  }

  lemma {:induction false} ServedOk(c: Clock, d: Clock, rtNow: int)
    requires ListOk(c.list, c.nextCookie) && ThreadOk(c) && c.thread == Timed(rtNow) && rtNow + UNITS_PER_MS <= MAX_TIME
    requires StaysBelowMaxTime(c.list, rtNow + UNITS_PER_MS)
    requires d.list == AdviseList.Advise(c.list, rtNow + UNITS_PER_MS).list
    requires d == c.(list := d.list, nextAdvise := HeadTime(d.list), thread := Advised(rtNow))
    ensures Inv(d)
  {
    AdviseOk(c.list, rtNow + UNITS_PER_MS, c.nextCookie);
    Served(c, d, rtNow);
  }

  lemma {:induction false} Served(c: Clock, d: Clock, rtNow: int)
    requires ThreadOk(c) && c.thread == Timed(rtNow) && ListOk(d.list, d.nextCookie) && rtNow + UNITS_PER_MS <= MAX_TIME
    requires HeadTime(d.list) > rtNow + UNITS_PER_MS || HeadTime(d.list) == MAX_TIME
    requires d == c.(list := d.list, nextAdvise := HeadTime(d.list), thread := Advised(rtNow))
    ensures Inv(d)
  {
  }

  lemma {:induction false} SleepKeepsInv(c: Clock)
    requires Inv(c) && Enabled(c, Sleep)
    ensures Inv(Step(c, Sleep))
  {
    WaitEnds(c.nextAdvise, c.thread.rtNow);
  }

  lemma {:induction false} WaitEnds(next: int, now: int)
    requires next > now + UNITS_PER_MS || next == MAX_TIME >= now + UNITS_PER_MS
    ensures var wait := WaitFor(next, now);
            && (wait.Ms? <==> next - now < UINT_MAX * UNITS_PER_MS)
            && (wait.Ms? ==> 1 <= wait.ms && now + wait.ms * UNITS_PER_MS <= next < now + (wait.ms + 1) * UNITS_PER_MS)
  {
  }

  /** A run of the clock from its start. */
  ghost predicate IsRun(start: int, acts: seq<Action>, cs: seq<Clock>) {
    && |cs| == |acts| + 1 && cs[0] == Start(start)
    && forall i :: 0 <= i < |acts| ==> CanStep(cs[i], acts[i], cs[i + 1])
  }

  ghost predicate CanStep(c: Clock, a: Action, d: Clock) {
    Inv(c) ==> Enabled(c, a) && d == Step(c, a)
  }

  lemma {:induction false} RunKeepsInv(start: int, acts: seq<Action>, cs: seq<Clock>, n: nat)
    requires IsRun(start, acts, cs) && n <= |acts|
    ensures Inv(cs[n])
  {
    if n > 0 {
      RunKeepsInv(start, acts, cs, n - 1);
      StepKeepsInv(cs[n - 1], acts[n - 1], cs[n]);
    }
  }

  /** Deadline safety: on every run, while the thread sleeps, no event is pending, and
      its wait has not elapsed, or has lasted at most UINT_MAX milliseconds, no packet
      is overdue by more than the adjustments since it read the time, and the time
      it took from there to its sleep. */
  lemma {:induction false} NoAdviseIsLate(start: int, acts: seq<Action>, cs: seq<Clock>, n: nat)
    requires IsRun(start, acts, cs) && n <= |acts|
    requires cs[n].thread.Sleeping? && !cs[n].eventSet
    requires var wait := cs[n].thread.wait; cs[n].slept <= if wait.Ms? then wait.ms else UINT_MAX
    ensures forall p <- cs[n].list :: cs[n].now <= p.time + cs[n].drift + cs[n].lag * UNITS_PER_MS
  {
    RunKeepsInv(start, acts, cs, n);
    var c := cs[n];
    NotLate(c.list, c.nextCookie, c.nextAdvise, c.now - c.drift - c.lag * UNITS_PER_MS);
  }

  lemma {:induction false} NotLate(l: seq<Packet>, nextCookie: nat, next: int, now: int)
    requires ListOk(l, nextCookie) && next <= HeadTime(l) && (now <= next || next == MAX_TIME)
    ensures forall p <- l :: now <= p.time
  {
    assert Sorted(l);
  }

  /** What sets the event: a packet due no later than all others, and an adjustment of
      more than half a millisecond forward while packets wait. It stays set until the
      thread wakes, which takes the time as it is then. */
  lemma {:induction false} EventsAreKept(start: int, acts: seq<Action>, cs: seq<Clock>, n: nat)
    requires IsRun(start, acts, cs) && n < |acts|
    ensures acts[n].AddAdvise? && acts[n].time <= HeadTime(cs[n].list) ==> cs[n + 1].eventSet
    ensures acts[n] == TriggerThread && cs[n].adjusting.Some? && cs[n].adjusting.value > 5000 && cs[n].list != [] ==>
              cs[n + 1].eventSet
    ensures cs[n].eventSet && acts[n] != Wake ==> cs[n + 1].eventSet
    ensures acts[n] == ReadTime ==> cs[n + 1].thread == Timed(cs[n].now)
  {
    RunKeepsInv(start, acts, cs, n);
    EventStep(cs[n], acts[n], cs[n + 1]);
  }

  lemma {:induction false} EventStep(c: Clock, a: Action, d: Clock)
    requires Inv(c) && CanStep(c, a, d)
    ensures a.AddAdvise? && a.time <= HeadTime(c.list) ==> d.eventSet
    ensures a == TriggerThread && c.adjusting.Some? && c.adjusting.value > 5000 && c.list != [] ==> d.eventSet
    ensures c.eventSet && a != Wake ==> d.eventSet
    ensures a == ReadTime ==> d.thread == Timed(c.now)
  {
    if a.AddAdvise? { AddOk(c.list, Packet(c.nextCookie + 1, a.time, a.period, a.notify, a.periodic), c.nextCookie); }
  }

  // ---- No advise is forgotten ----

  /** The packet of a cookie, as it was asked for; a periodic one may have moved on. */
  predicate Waits(l: seq<Packet>, cookie: nat, a: Action)
    requires a.AddAdvise?
  {
    exists i :: 0 <= i < |l| && IsPacketOf(l[i], cookie, a)
  }

  predicate IsPacketOf(p: Packet, cookie: nat, a: Action)
    requires a.AddAdvise?
  {
    && p.cookie == cookie && p.notify == a.notify && p.period == a.period && p.periodic == a.periodic
    && p.time >= a.time && (!p.periodic ==> p.time == a.time)
  }

  /** Some Serve in a stretch of the run signals a cookie for a time. */
  ghost predicate Signalled(acts: seq<Action>, cs: seq<Clock>, from: nat, n: nat, f: Firing)
    requires n <= |acts| <= |cs|
  {
    exists j :: from <= j < n && Signals(acts[j], cs[j], f)
  }

  ghost predicate Signals(a: Action, c: Clock, f: Firing) {
    && a == Serve && c.thread.Timed? && Progressing(c.list)
    && f in AdviseList.Advise(c.list, c.thread.rtNow + UNITS_PER_MS).log
  }

  /** No advise is forgotten: on every run, an advise that was added and not cancelled
      is on the list, or it was for one time and has been signalled for that time. */
  lemma {:induction false} NoAdviseIsForgotten(start: int, acts: seq<Action>, cs: seq<Clock>, i: nat, n: nat)
    requires IsRun(start, acts, cs) && i < n <= |acts| && acts[i].AddAdvise?
    requires forall j :: i < j < n ==> acts[j] != CancelAdvise(cs[i].nextCookie + 1)
    ensures var cookie, a := cs[i].nextCookie + 1, acts[i];
            || Waits(cs[n].list, cookie, a)
            || (!a.periodic && Signalled(acts, cs, i + 1, n, Firing(cookie, a.notify, a.time)))
  {
    var cookie, a, m := cs[i].nextCookie + 1, acts[i], n - 1;
    RunKeepsInv(start, acts, cs, m);
    if m == i {
      AddedWaits(cs[i], a, cs[i + 1]);
    } else {
      NoAdviseIsForgotten(start, acts, cs, i, m);
      if Waits(cs[m].list, cookie, a) {
        KeepsWaiting(cs[m], acts[m], cs[m + 1], cookie, a);
      } else {
        var j :| i + 1 <= j < m && Signals(acts[j], cs[j], Firing(cookie, a.notify, a.time));
        assert j < n;
      }
    }
  }

  lemma {:induction false} AddedWaits(c: Clock, a: Action, d: Clock)
    requires Inv(c) && CanStep(c, a, d) && a.AddAdvise?
    ensures Waits(d.list, c.nextCookie + 1, a)
  {
    AddedIsThere(c.list, Packet(c.nextCookie + 1, a.time, a.period, a.notify, a.periodic), c.nextCookie + 1, a);
  }

  lemma {:induction false} AddedIsThere(l: seq<Packet>, p: Packet, cookie: nat, a: Action)
    requires a.AddAdvise? && IsPacketOf(p, cookie, a)
    ensures Waits(Add(l, p), cookie, a)
  {
    AddMultiset(l, p);
    assert p in multiset(Add(l, p));
    StillWaits(Add(l, p), p, cookie, a);
  }

  lemma {:induction false} KeepsWaiting(c: Clock, a: Action, d: Clock, cookie: nat, added: Action)
    requires Inv(c) && CanStep(c, a, d) && a != CancelAdvise(cookie) && added.AddAdvise? && Waits(c.list, cookie, added)
    ensures Waits(d.list, cookie, added) || (!added.periodic && Signals(a, c, Firing(cookie, added.notify, added.time)))
  {
    match a
    case AddAdvise(time, period, notify, periodic) =>
      AddKeepsWaiting(c.list, Packet(c.nextCookie + 1, time, period, notify, periodic), cookie, added);
    case CancelAdvise(other) => RemoveKeepsWaiting(c.list, other, cookie, added);
    case Serve =>
      ServeStep(c, d);
      ServeKeepsWaiting(c, d, cookie, added);
    case _ => assert d.list == c.list;
  }

  lemma {:induction false} ServeKeepsWaiting(c: Clock, d: Clock, cookie: nat, added: Action)
    requires c.thread.Timed? && Sorted(c.list) && Progressing(c.list) && DistinctCookies(c.list)
    requires d.list == AdviseList.Advise(c.list, c.thread.rtNow + UNITS_PER_MS).list
    requires added.AddAdvise? && Waits(c.list, cookie, added)
    ensures Waits(d.list, cookie, added) || (!added.periodic && Signals(Serve, c, Firing(cookie, added.notify, added.time)))
  {
    ServedWaiting(c.list, c.thread.rtNow + UNITS_PER_MS, cookie, added);
  }

  lemma {:induction false} ServedWaiting(l: seq<Packet>, t: int, cookie: nat, a: Action)
    requires a.AddAdvise? && Sorted(l) && Progressing(l) && DistinctCookies(l) && Waits(l, cookie, a)
    ensures var out := AdviseList.Advise(l, t);
            Waits(out.list, cookie, a) || (!a.periodic && Firing(cookie, a.notify, a.time) in out.log)
  {
    var i :| 0 <= i < |l| && IsPacketOf(l[i], cookie, a);
    ServedOrWaits(l, i, t, cookie, a);
  }

  lemma {:induction false} AddKeepsWaiting(l: seq<Packet>, q: Packet, cookie: nat, a: Action)
    requires a.AddAdvise? && Waits(l, cookie, a)
    ensures Waits(Add(l, q), cookie, a)
  {
    var i :| 0 <= i < |l| && IsPacketOf(l[i], cookie, a);
    AddMultiset(l, q);
    assert l[i] in multiset(Add(l, q));
    StillWaits(Add(l, q), l[i], cookie, a);
  }

  lemma {:induction false} RemoveKeepsWaiting(l: seq<Packet>, other: nat, cookie: nat, a: Action)
    requires a.AddAdvise? && DistinctCookies(l) && other != cookie && Waits(l, cookie, a)
    ensures Waits(Remove(l, other), cookie, a)
  {
    var i :| 0 <= i < |l| && IsPacketOf(l[i], cookie, a);
    RemoveMeaning(l, other);
    StillWaits(Remove(l, other), l[i], cookie, a);
  }

  lemma {:induction false} StillWaits(l: seq<Packet>, p: Packet, cookie: nat, a: Action)
    requires a.AddAdvise? && p in l && IsPacketOf(p, cookie, a)
    ensures Waits(l, cookie, a)
  {
    var k :| 0 <= k < |l| && l[k] == p;
    assert IsPacketOf(l[k], cookie, a);
  }

  lemma {:induction false} ServedOrWaits(l: seq<Packet>, i: nat, t: int, cookie: nat, a: Action)
    requires a.AddAdvise? && Sorted(l) && Progressing(l) && DistinctCookies(l) && i < |l| && IsPacketOf(l[i], cookie, a)
    ensures var out := AdviseList.Advise(l, t);
            Waits(out.list, cookie, a) || (!a.periodic && Firing(cookie, a.notify, a.time) in out.log)
  {
    var p := l[i];
    assert p in l;
    SurvivorTime(p, t);
    if p.time > t || p.periodic {
      SurvivorRemains(l, i, t);
      if p.periodic { Arithmetic.ProductBound(0, p.period, |Firings(p, t)|, p.period); }
      StillWaits(AdviseList.Advise(l, t).list, Survivor(p, t)[0], cookie, a);
    } else {
      DueIsLogged(l, i, t);
    }
  }

  /** A cancelled advise is over: on every run, no Serve after the call signals its
      cookie, whatever is added, because cookies are not used again. */
  lemma {:induction false} CancelledIsSilent(start: int, acts: seq<Action>, cs: seq<Clock>, i: nat, n: nat, f: Firing)
    requires IsRun(start, acts, cs) && i < n <= |acts|
    requires acts[i] == CancelAdvise(f.cookie) && f.cookie <= cs[i].nextCookie
    ensures !Signalled(acts, cs, i + 1, n, f)
  {
    forall j | i + 1 <= j < n
      ensures !Signals(acts[j], cs[j], f)
    {
      CancelledIsGone(start, acts, cs, i, j);
      if acts[j] == Serve && cs[j].thread.Timed? && Progressing(cs[j].list) {
        AdviseKnows(cs[j].list, cs[j].thread.rtNow + UNITS_PER_MS, f.cookie);
      }
    }
  }

  lemma {:induction false} CancelledIsGone(start: int, acts: seq<Action>, cs: seq<Clock>, i: nat, n: nat)
    requires IsRun(start, acts, cs) && i < n <= |acts| && acts[i].CancelAdvise? && acts[i].cookie <= cs[i].nextCookie
    ensures Without(cs[n].list, acts[i].cookie) && acts[i].cookie <= cs[n].nextCookie
  {
    var m := n - 1;
    RunKeepsInv(start, acts, cs, m);
    if m == i {
      RemoveMeaning(cs[i].list, acts[i].cookie);
    } else {
      CancelledIsGone(start, acts, cs, i, m);
      StaysGone(cs[m], acts[m], cs[m + 1], acts[i].cookie);
    }
  }

  lemma {:induction false} StaysGone(c: Clock, a: Action, d: Clock, cookie: nat)
    requires Inv(c) && CanStep(c, a, d) && Without(c.list, cookie) && cookie <= c.nextCookie
    ensures Without(d.list, cookie) && cookie <= d.nextCookie
  {
    match a
    case AddAdvise(time, period, notify, periodic) =>
      AddStep(c, a, d);
      AddMultiset(c.list, Packet(c.nextCookie + 1, time, period, notify, periodic));
      assert forall p <- d.list :: p in multiset(d.list);
    case CancelAdvise(other) => RemoveMeaning(c.list, other);
    case Serve =>
      ServeStep(c, d);
      AdviseKnows(c.list, c.thread.rtNow + UNITS_PER_MS, cookie);
    case _ => assert d.list == c.list;
  }

  /** After Advise nothing is due within a millisecond of the time read, and the
      thread will sleep at least a millisecond, and until the last whole one before
      the next advise. */
  lemma {:induction false} WakeUpServesEverything(c: Clock)
    requires Inv(c) && Enabled(c, Serve)
    ensures var d, rtNow := Step(c, Serve), c.thread.rtNow;
            && (forall p <- d.list :: p.time > rtNow + UNITS_PER_MS)
            && d.nextAdvise >= rtNow
            && var wait := WaitFor(d.nextAdvise, rtNow);
            && (wait.Ms? ==> 1 <= wait.ms)
            && (wait.Ms? ==> rtNow + wait.ms * UNITS_PER_MS <= HeadTime(d.list) < rtNow + (wait.ms + 1) * UNITS_PER_MS)
            && (wait.Ms? <==> HeadTime(d.list) - rtNow < UINT_MAX * UNITS_PER_MS)
  {
    NothingLeftDue(c.list, c.thread.rtNow + UNITS_PER_MS, c.nextCookie);
    ServeKeepsInv(c, Step(c, Serve));
    WaitEnds(Step(c, Serve).nextAdvise, c.thread.rtNow);
  }

  lemma {:induction false} NothingLeftDue(l: seq<Packet>, t: int, nextCookie: nat)
    requires ListOk(l, nextCookie) && StaysBelowMaxTime(l, t)
    ensures forall p <- AdviseList.Advise(l, t).list :: p.time > t
  {
    AdviseOk(l, t, nextCookie);
    AdviseOrder(l, t, HeadTime(l));
    SortedAfterHead(AdviseList.Advise(l, t).list, t);
  }

  lemma {:induction false} SortedAfterHead(l: seq<Packet>, t: int)
    requires Sorted(l) && (l == [] || l[0].time > t)
    ensures forall p <- l :: p.time > t
  {
  }

  /** The limit of the deadline guarantee: UINT_MAX milliseconds is the value
      that means forever. The first advise on a fresh clock, if it is due that
      far ahead, puts the thread to sleep with no way to wake in time. */
  lemma {:induction false} FarAdviseIsMissed(time: int) returns (acts: seq<Action>, cs: seq<Clock>)
    requires UINT_MAX * UNITS_PER_MS <= time < MAX_TIME
    ensures IsRun(0, acts, cs)
    ensures acts == [AddAdvise(time, 0, 0, false), Wake, ReadTime, Serve, Sleep, Tick(time / UNITS_PER_MS + 1)]
    ensures var c := cs[6];
            c.list != [] && c.thread == Sleeping(Forever) && !c.eventSet && c.drift == c.lag == 0 && c.now > HeadTime(c.list)
  {
    var ms := time / UNITS_PER_MS + 1;
    var p := Packet(1, time, 0, 0, false);
    var c1 := Clock([p], 1, true, 0, MAX_TIME, Sleeping(Forever), None, 0, 0, 0, 0);
    var c2 := c1.(eventSet := false, thread := Woken);
    var c4 := c2.(nextAdvise := time, thread := Advised(0));
    var c5 := c4.(thread := Sleeping(Forever));
    FarAdvise(time, p);
    FarServe(time, p, c2.(thread := Timed(0)));
    FarSleep(time, p, c4, c5, ms);
    acts := [AddAdvise(time, 0, 0, false), Wake, ReadTime, Serve, Sleep, Tick(ms)];
    cs := [Start(0), c1, c2, c2.(thread := Timed(0)), c4, c5, c5.(now := ms * UNITS_PER_MS, slept := ms)];
    assert CanStep(c1, Wake, c2) && CanStep(c2, ReadTime, c2.(thread := Timed(0)));
  }

  lemma {:induction false} FarAdvise(time: int, p: Packet)
    requires 0 < time < MAX_TIME && p == Packet(1, time, 0, 0, false)
    ensures CanStep(Start(0), AddAdvise(time, 0, 0, false),
                    Clock([p], 1, true, 0, MAX_TIME, Sleeping(Forever), None, 0, 0, 0, 0))
  {
    assert Add([], p) == [p];
  }

  lemma {:induction false} FarSleep(time: int, p: Packet, c: Clock, d: Clock, ms: nat)
    requires UINT_MAX * UNITS_PER_MS <= time < MAX_TIME && p == Packet(1, time, 0, 0, false)
    requires c.list == [p] && c.nextAdvise == time && c.thread == Advised(0) && c.since == c.now == c.lag == c.slept == 0
    requires d == c.(thread := Sleeping(Forever))
    ensures CanStep(c, Sleep, d) && CanStep(d, Tick(ms), d.(now := ms * UNITS_PER_MS, slept := ms))
  {
  }

  lemma {:induction false} FarServe(time: int, p: Packet, c: Clock)
    requires UNITS_PER_MS < time < MAX_TIME && p == Packet(1, time, 0, 0, false)
    requires c.list == [p] && c.thread == Timed(0)
    ensures CanStep(c, Serve, c.(nextAdvise := time, thread := Advised(0)))
  {
    assert Survivor(p, UNITS_PER_MS) == [p];
  }

  datatype AdviseResult = Cookie(cookie: nat) | InvalidArgument

  class CBaseReferenceClock {
    const schedule: CAMSchedule
    var privateTime: int
    var prevSystemTime: u32
    var lastGotTime: int
    var nextAdvise: int

    ghost predicate Valid()
      reads this, schedule, schedule.repr
    {
      schedule.Valid() && ListOk(schedule.list, schedule.nextCookie)
    }

    constructor (dwTime: u32)
      ensures Valid() && fresh(schedule) && fresh(schedule.repr)
      ensures schedule.list == [] && privateTime == UNITS_PER_MS * dwTime && prevSystemTime == dwTime
    {
      schedule := new CAMSchedule();
      prevSystemTime, privateTime := dwTime, UNITS_PER_MS * dwTime;
      lastGotTime, nextAdvise := 0, MAX_TIME;
    }

    /** GetPrivateTime: advances by the milliseconds since the last call, a
        32-bit difference read as a signed number by the 32-by-32 multiply. */
    method GetPrivateTime(dwTime: u32) returns (t: int)
      modifies this`privateTime, this`prevSystemTime
      ensures t == privateTime && prevSystemTime == dwTime
      ensures privateTime == old(Now(dwTime))
      ensures forall d: nat :: d < TWO31 && dwTime == TicksLater(old(prevSystemTime), d) ==>
                privateTime == old(privateTime) + UNITS_PER_MS * d
    {
      forall d: nat | d < TWO31 && dwTime == TicksLater(prevSystemTime, d)
        ensures Elapsed(prevSystemTime, dwTime) == d
      {
        ElapsedAfter(prevSystemTime, d);
      }
      privateTime := privateTime + UNITS_PER_MS * Elapsed(prevSystemTime, dwTime);
      prevSystemTime := dwTime;
      t := privateTime;
    }

    /** GetTime never goes back, whatever the internal clock does. */
    method GetTime(dwTime: u32) returns (t: int, advanced: bool)
      modifies this`privateTime, this`prevSystemTime, this`lastGotTime
      ensures t == lastGotTime >= old(lastGotTime)
      ensures advanced <==> t > old(lastGotTime)
      ensures t == privateTime || t == old(lastGotTime) >= privateTime
    {
      var rtNow := GetPrivateTime(dwTime);
      advanced := rtNow > lastGotTime;
      if advanced {
        lastGotTime := rtNow;
      }
      t := lastGotTime;
    }

    method SetTimeDelta(delta: int)
      requires Valid()
      modifies this`privateTime, schedule`eventSet
      ensures Valid() && privateTime == old(privateTime) + delta
      ensures schedule.eventSet == (old(schedule.eventSet) || (delta > 5000 && |schedule.list| > 0))
    {
      privateTime := privateTime + delta;
      if delta > 5000 && schedule.adviseCount > 0 {
        schedule.eventSet := true;
      }
    }

    /** A new packet on the schedule, for either kind of advise. */
    method AddAdvise(time: int, period: int, notify: int, periodic: bool) returns (cookie: nat)
      requires Valid() && time < MAX_TIME && (periodic ==> period > 0)
      modifies schedule, schedule.repr
      ensures Valid() && fresh(schedule.repr - old(schedule.repr))
      ensures cookie == old(schedule.nextCookie) + 1
      ensures schedule.list == Add(old(schedule.list), Packet(cookie, time, period, notify, periodic))
      ensures schedule.eventSet == (old(schedule.eventSet) || Slot(old(schedule.list), time, false) == 0)
    {
      ghost var list, last := schedule.list, schedule.nextCookie;
      cookie := schedule.AddAdvisePacket(time, period, notify, periodic);
      AddOk(list, Packet(cookie, time, period, notify, periodic), last);
    }

    method AdviseTime(baseTime: i64, streamTime: i64, notify: int) returns (r: AdviseResult)
      requires Valid()
      modifies schedule, schedule.repr
      ensures Valid() && fresh(schedule.repr - old(schedule.repr))
      ensures var time := Signed64(Wrap64(baseTime + streamTime));
              if 0 < time < MAX_TIME then
                && r == Cookie(old(schedule.nextCookie) + 1)
                && schedule.list == Add(old(schedule.list), Packet(r.cookie, time, 0, notify, false))
                && schedule.eventSet == (old(schedule.eventSet) || Slot(old(schedule.list), time, false) == 0)
              else r == InvalidArgument && schedule.list == old(schedule.list) && schedule.eventSet == old(schedule.eventSet)
    {
      var lRefTime := Signed64(Wrap64(baseTime + streamTime));
      if lRefTime <= 0 || lRefTime == MAX_TIME {
        return InvalidArgument;
      }
      var cookie := AddAdvise(lRefTime, 0, notify, false);
      r := Cookie(cookie);
    }

    method AdvisePeriodic(startTime: i64, periodTime: i64, notify: int) returns (r: AdviseResult)
      requires Valid()
      modifies schedule, schedule.repr
      ensures Valid() && fresh(schedule.repr - old(schedule.repr))
      ensures if 0 < startTime < MAX_TIME && periodTime > 0 then
                && r == Cookie(old(schedule.nextCookie) + 1)
                && schedule.list == Add(old(schedule.list), Packet(r.cookie, startTime, periodTime, notify, true))
                && schedule.eventSet == (old(schedule.eventSet) || Slot(old(schedule.list), startTime, false) == 0)
              else r == InvalidArgument && schedule.list == old(schedule.list) && schedule.eventSet == old(schedule.eventSet)
    {
      if startTime > 0 && periodTime > 0 && startTime != MAX_TIME {
        var cookie := AddAdvise(startTime, periodTime, notify, true);
        r := Cookie(cookie);
      } else {
        r := InvalidArgument;
      }
    }

    /** Fires what is due within a millisecond of rtNow, and computes the wait for
        the next due time. */
    method Serve(rtNow: int) returns (dwWait: Wait)
      requires Valid() && DueBy(rtNow) <= MAX_TIME && StaysBelowMaxTime(schedule.list, DueBy(rtNow))
      modifies this`nextAdvise, schedule`links, schedule`adviseCount, schedule`list, schedule`fired
      modifies schedule`cached, schedule`adviseCache, schedule`cacheCount, schedule.repr`next, schedule.repr`eventTime
      ensures Valid()
      ensures Advises(old(schedule.list), old(schedule.fired), DueBy(rtNow), schedule.list, schedule.fired)
      ensures nextAdvise == HeadTime(schedule.list) >= rtNow && dwWait == WaitFor(nextAdvise, rtNow)
    {
      ghost var before, log := schedule.list, schedule.fired;
      nextAdvise := schedule.Advise(DueBy(rtNow));
      AdvisesOk(before, log, DueBy(rtNow), schedule.list, schedule.fired, schedule.nextCookie);
      dwWait := WaitFor(nextAdvise, rtNow);
    }

    /** The internal time a call at dwTime finds. */
    ghost function Now(dwTime: u32): int
      reads this
    {
      privateTime + UNITS_PER_MS * Elapsed(prevSystemTime, dwTime)
    }

    /** One turn of AdviseThread, from its wake-up to its next wait. */
    method WakeUp(dwTime: u32) returns (dwWait: Wait)
      requires Valid()
      requires DueBy(Now(dwTime)) <= MAX_TIME && StaysBelowMaxTime(schedule.list, DueBy(Now(dwTime)))
      modifies this`privateTime, this`prevSystemTime, this`nextAdvise, schedule, schedule.repr
      ensures Valid() && !schedule.eventSet
      ensures privateTime == old(Now(dwTime))
      ensures Advises(old(schedule.list), old(schedule.fired), DueBy(privateTime), schedule.list, schedule.fired)
      ensures nextAdvise == HeadTime(schedule.list) >= privateTime
      ensures dwWait == WaitFor(nextAdvise, privateTime)
    {
      schedule.eventSet := false;
      var rtNow := GetPrivateTime(dwTime);
      dwWait := Serve(rtNow);
    }
  }

  /** A wake-up serves what is due in the coming millisecond. */
  function DueBy(now: int): int { now + UNITS_PER_MS }

  lemma {:induction false} AdvisesOk(l: seq<Packet>, log: seq<Firing>, t: int, m: seq<Packet>, newLog: seq<Firing>,
                                     nextCookie: nat)
    requires ListOk(l, nextCookie) && StaysBelowMaxTime(l, t) && Advises(l, log, t, m, newLog)
    ensures ListOk(m, nextCookie) && (HeadTime(m) > t || HeadTime(m) == MAX_TIME)
  {
    AdviseOk(l, t, nextCookie);
  }

  /** (DWORD)(dwTime - m_dwPrevSystemTime), as a signed 32-bit number. */
  function Elapsed(prev: u32, dwTime: u32): i32 {
    var diff := (dwTime - prev) % TWO32;
    if diff < TWO31 then diff else diff - TWO32
  }

  /** The millisecond counter some time later. */
  function TicksLater(ticks: u32, ms: nat): u32 { (ticks + ms) % TWO32 }

  lemma {:induction false} ElapsedAfter(prev: u32, d: nat)
    requires d < TWO31
    ensures Elapsed(prev, TicksLater(prev, d)) == d
  {
    DifferenceWraps(prev, d);
  }

  lemma {:induction false} DifferenceWraps(prev: u32, ms: nat)
    ensures ((prev + ms) % TWO32 - prev) % TWO32 == ms % TWO32
  {
    var q, r := ms / TWO32, ms % TWO32;
    if prev + r < TWO32 {
      assert prev + ms == TWO32 * q + (prev + r);
    } else {
      assert prev + ms == TWO32 * (q + 1) + (prev + r - TWO32);
    }
  }

  /** The elapsed time is exact, across the wrap of the millisecond counter too,
      as long as less than 2^31 ms pass between two readings. */
  lemma {:induction false} ElapsedIsExact(start: nat, ms: nat)
    ensures Elapsed(start % TWO32, (start + ms) % TWO32) == ms <==> ms < TWO31
  {
    var prev := start % TWO32;
    assert (start + ms) % TWO32 == (prev + ms) % TWO32;
    DifferenceWraps(prev, ms);
  }
}
