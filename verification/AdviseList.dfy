/** The advise list as a value: packets in due order, what one Advise call
    fires, and what it leaves behind (external/baseclasses/schedule.cpp). */
module AdviseList {
  import opened Arithmetic

  const MAX_TIME := 0x7FFF_FFFF_FFFF_FFFF

  datatype Packet = Packet(cookie: nat, time: int, period: int, notify: int, periodic: bool)

  /** One signal: whose, and for which due time. */
  datatype Firing = Firing(cookie: nat, notify: int, due: int)

  predicate Sorted(l: seq<Packet>) {
    forall i, j :: 0 <= i < j < |l| ==> l[i].time <= l[j].time
  }

  predicate DistinctCookies(l: seq<Packet>) {
    forall i, j :: 0 <= i < j < |l| ==> l[i].cookie != l[j].cookie
  }

  /** Periodic packets have a positive period (refclock.cpp checks this). */
  predicate Progressing(l: seq<Packet>) {
    forall p <- l :: p.periodic ==> p.period > 0
  }

  /** Where the search loops stop: before packets of the same time when a packet
      is added, after them when the head is shunted. */
  function Slot(l: seq<Packet>, time: int, pastEqual: bool): (k: nat)
    ensures k <= |l|
    ensures forall i :: 0 <= i < k ==> l[i].time < time || (pastEqual && l[i].time == time)
    ensures k < |l| ==> l[k].time > time || (!pastEqual && l[k].time == time)
  {
    if l == [] || l[0].time > time || (!pastEqual && l[0].time == time) then 0
    else 1 + Slot(l[1..], time, pastEqual)
  }

  function InsertAt(l: seq<Packet>, k: nat, p: Packet): seq<Packet>
    requires k <= |l|
  {
    l[..k] + [p] + l[k..]
  }

  function Add(l: seq<Packet>, p: Packet): seq<Packet> {
    InsertAt(l, Slot(l, p.time, false), p)
  }

  /** The head, moved behind everything due no later than it. */
  function Shunt(l: seq<Packet>): seq<Packet>
    requires l != []
  {
    InsertAt(l[1..], Slot(l[1..], l[0].time, true), l[0])
  }

  function Remove(l: seq<Packet>, cookie: nat): seq<Packet> {
    if l == [] then []
    else if l[0].cookie == cookie then l[1..]
    else [l[0]] + Remove(l[1..], cookie)
  }

  function Advanced(p: Packet): Packet { p.(time := p.time + p.period) }

  /** The list after its due head has fired. */
  function FireHead(l: seq<Packet>): seq<Packet>
    requires l != []
  {
    if l[0].periodic then Shunt([Advanced(l[0])] + l[1..]) else l[1..]
  }

  function Fire(p: Packet): Firing { Firing(p.cookie, p.notify, p.time) }

  /** What one packet alone fires up to time t. */
  function Firings(p: Packet, t: int): seq<Firing>
    requires p.periodic ==> p.period > 0
    decreases t - p.time
  {
    if p.time > t then []
    else if p.periodic then [Fire(p)] + Firings(Advanced(p), t)
    else [Fire(p)]
  }

  /** A packet as Advise(t) leaves it; a one-shot that is due leaves nothing. */
  function Survivor(p: Packet, t: int): seq<Packet>
    requires p.periodic ==> p.period > 0
    decreases t - p.time
  {
    if p.time > t then [p]
    else if p.periodic then Survivor(Advanced(p), t)
    else []
  }

  /** How often a packet fires. */
  lemma {:induction false} FiringCount(p: Packet, t: int)
    requires p.periodic ==> p.period > 0
    ensures |Firings(p, t)| == if p.time > t then 0 else if p.periodic then (t - p.time) / p.period + 1 else 1
    decreases t - p.time
  {
    if p.time <= t && p.periodic {
      FiringCount(Advanced(p), t);
      var gap, period := t - p.time, p.period;
      var n := if gap < period then 0 else (gap - period) / period + 1;
      assert |Firings(p, t)| == 1 + n;
      if gap >= period {
        assert gap == period * n + (gap - period) % period;
        QuotientUnique(gap, period, n, (gap - period) % period);
      } else {
        QuotientUnique(gap, period, 0, gap);
      }
    }
  }

  /** The k-th firing is for the packet's time plus k periods. */
  lemma {:induction false} FiringTime(p: Packet, t: int, k: nat)
    requires p.periodic ==> p.period > 0
    requires k < |Firings(p, t)|
    ensures Firings(p, t)[k] == Firing(p.cookie, p.notify, p.time + k * p.period)
    ensures p.time + k * p.period <= t
    decreases k
  {
    if k > 0 {
      FiringTime(Advanced(p), t, k - 1);
      assert (k - 1) * p.period == k * p.period - p.period;
    }
  }

  /** Where a packet ends: a periodic one at the least time + k * period that is
      later than t, with k the number of its firings. */
  lemma {:induction false} SurvivorTime(p: Packet, t: int)
    requires p.periodic ==> p.period > 0
    ensures Survivor(p, t) == if p.time > t || p.periodic
                              then [p.(time := p.time + |Firings(p, t)| * p.period)] else []
    ensures forall q <- Survivor(p, t) :: q.time > t && (q.time == p.time || q.time - p.period <= t)
    decreases t - p.time
  {
    if p.time <= t && p.periodic {
      SurvivorTime(Advanced(p), t);
      var n := |Firings(Advanced(p), t)|;
      assert (1 + n) * p.period == p.period + n * p.period;
    }
  }

  /** The total number of firings still due: what makes Advise terminate. */
  function Work(l: seq<Packet>, t: int): nat
    requires Progressing(l)
  {
    if l == [] then 0 else |Firings(l[0], t)| + Work(l[1..], t)
  }

  lemma {:induction false} WorkSplit(a: seq<Packet>, b: seq<Packet>, t: int)
    requires Progressing(a + b)
    ensures Progressing(a) && Progressing(b)
    ensures Work(a + b, t) == Work(a, t) + Work(b, t)
  {
    assert forall p <- a :: p in a + b;
    assert forall p <- b :: p in a + b;
    if a == [] {
      assert a + b == b;
    } else {
      assert (a + b)[1..] == a[1..] + b;
      WorkSplit(a[1..], b, t);
    }
  }

  /** Firing a due head leaves one firing less. */
  lemma {:induction false} InsertWork(l: seq<Packet>, k: nat, p: Packet, t: int)
    requires k <= |l| && Progressing(l) && Progressing([p])
    ensures Progressing(InsertAt(l, k, p))
    ensures Work(InsertAt(l, k, p), t) == Work(l, t) + |Firings(p, t)|
  {
    var tail := [p] + l[k..];
    assert l == l[..k] + l[k..] && InsertAt(l, k, p) == l[..k] + tail && tail[1..] == l[k..];
    assert Progressing(l[..k] + tail);
    WorkSplit(l[..k], l[k..], t);
    WorkSplit(l[..k], tail, t);
  }

  /** The list after a periodic head has fired, as an insertion into the tail. */
  lemma {:induction false} FireHeadInserts(l: seq<Packet>) returns (k: nat)
    requires l != [] && l[0].periodic
    ensures k == Slot(l[1..], Advanced(l[0]).time, true)
    ensures FireHead(l) == InsertAt(l[1..], k, Advanced(l[0]))
  {
    assert ([Advanced(l[0])] + l[1..])[1..] == l[1..];
    k := Slot(l[1..], Advanced(l[0]).time, true);
  }

  lemma {:induction false} FireHeadWork(l: seq<Packet>, t: int)
    requires l != [] && l[0].time <= t && Progressing(l)
    ensures Progressing(FireHead(l))
    ensures Work(FireHead(l), t) == Work(l, t) - 1
  {
    if l[0].periodic {
      var k := FireHeadInserts(l);
      InsertWork(l[1..], k, Advanced(l[0]), t);
    }
  }

  datatype Outcome = Outcome(list: seq<Packet>, log: seq<Firing>)

  /** One call of Advise(t): while the head is due, fire it. */
  function Advise(l: seq<Packet>, t: int): Outcome
    requires Progressing(l)
    decreases Work(l, t)
  {
    if l == [] || l[0].time > t then Outcome(l, [])
    else
      FireHeadWork(l, t);
      var rest := Advise(FireHead(l), t);
      Outcome(rest.list, [Fire(l[0])] + rest.log)
  }

  // ---- What Advise achieves ----

  predicate SortedFrom(l: seq<Packet>, time: int) {
    Sorted(l) && forall p <- l :: p.time >= time
  }

  lemma {:induction false} InsertKeepsOrder(l: seq<Packet>, p: Packet, pastEqual: bool)
    requires Sorted(l)
    ensures Sorted(InsertAt(l, Slot(l, p.time, pastEqual), p))
  {
    var k := Slot(l, p.time, pastEqual);
    var r := InsertAt(l, k, p);
    forall i, j | 0 <= i < j < |r|
      ensures r[i].time <= r[j].time
    {
      assert r[i] == if i < k then l[i] else if i == k then p else l[i - 1];
      assert r[j] == if j < k then l[j] else if j == k then p else l[j - 1];
    }
  }

  lemma {:induction false} InsertMultiset(l: seq<Packet>, k: nat, p: Packet)
    requires k <= |l|
    ensures multiset(InsertAt(l, k, p)) == multiset(l) + multiset{p}
  {
    assert l == l[..k] + l[k..];
  }

  /** Firing the head keeps the order, and no later firing is due earlier. */
  lemma {:induction false} FireHeadOrder(l: seq<Packet>)
    requires l != [] && Sorted(l) && Progressing(l)
    ensures SortedFrom(FireHead(l), l[0].time)
  {
    FireHeadMembers(l);
    if l[0].periodic {
      var k := FireHeadInserts(l);
      InsertKeepsOrder(l[1..], Advanced(l[0]), true);
    }
    MembersFrom(l, FireHead(l));
  }

  lemma {:induction false} MembersFrom(l: seq<Packet>, m: seq<Packet>)
    requires l != [] && Sorted(l) && Progressing(l) && Sorted(m)
    requires forall q <- m :: q in l[1..] || (l[0].periodic && q == Advanced(l[0]))
    ensures SortedFrom(m, l[0].time)
  {
    assert l[0] in l;
  }

  lemma {:induction false} FireHeadMembers(l: seq<Packet>)
    requires l != []
    ensures forall q <- FireHead(l) :: q in l[1..] || (l[0].periodic && q == Advanced(l[0]))
  {
    if l[0].periodic {
      var k := FireHeadInserts(l);
      InsertMembers(l[1..], k, Advanced(l[0]));
    }
  }

  lemma {:induction false} InsertMembers(l: seq<Packet>, k: nat, p: Packet)
    requires k <= |l|
    ensures forall q <- InsertAt(l, k, p) :: q in l || q == p
  {
  }

  lemma {:induction false} SameCookies(l: seq<Packet>)
    requires l != [] && DistinctCookies(l)
    ensures DistinctCookies(FireHead(l))
  {
    if l[0].periodic {
      var k := FireHeadInserts(l);
      InsertDistinct(l[1..], k, Advanced(l[0]));
    }
  }

  lemma {:induction false} InsertDistinct(l: seq<Packet>, k: nat, p: Packet)
    requires k <= |l| && DistinctCookies(l)
    requires forall i :: 0 <= i < |l| ==> l[i].cookie != p.cookie
    ensures DistinctCookies(InsertAt(l, k, p))
  {
    var r := InsertAt(l, k, p);
    forall i, j | 0 <= i < j < |r|
      ensures r[i].cookie != r[j].cookie
    {
      assert r[i] == if i < k then l[i] else if i == k then p else l[i - 1];
      assert r[j] == if j < k then l[j] else if j == k then p else l[j - 1];
    }
  }

  /** Advise leaves the list in order, with nothing due; it fires in due order,
      and never for a time later than t. */
  lemma {:induction false} AdviseOrder(l: seq<Packet>, t: int, from: int)
    requires SortedFrom(l, from) && Progressing(l)
    ensures var out := Advise(l, t);
            && Sorted(out.list)
            && (out.list == [] || out.list[0].time > t)
            && InDueOrder(out.log, from, t)
    decreases Work(l, t)
  {
    if l != [] && l[0].time <= t {
      FireHeadWork(l, t);
      FireHeadOrder(l);
      AdviseOrder(FireHead(l), t, l[0].time);
      var out, rest := Advise(l, t), Advise(FireHead(l), t);
      InDueOrderCons(Fire(l[0]), rest.log, from, t);
    }
  }

  /** Firings in due order, between two times. */
  predicate InDueOrder(log: seq<Firing>, from: int, t: int) {
    && (forall i, j :: 0 <= i < j < |log| ==> log[i].due <= log[j].due)
    && (forall i :: 0 <= i < |log| ==> from <= log[i].due <= t)
  }

  lemma {:induction false} InDueOrderCons(f: Firing, log: seq<Firing>, from: int, t: int)
    requires from <= f.due <= t && InDueOrder(log, f.due, t)
    ensures InDueOrder([f] + log, from, t)
  {
  }

  /** What every packet of a list leaves behind, in list order. */
  function Survivors(l: seq<Packet>, t: int): seq<Packet>
    requires Progressing(l)
  {
    if l == [] then [] else Survivor(l[0], t) + Survivors(l[1..], t)
  }

  lemma {:induction false} SurvivorsSplit(a: seq<Packet>, b: seq<Packet>, t: int)
    requires Progressing(a + b)
    ensures Progressing(a) && Progressing(b)
    ensures Survivors(a + b, t) == Survivors(a, t) + Survivors(b, t)
  {
    assert forall p <- a :: p in a + b;
    assert forall p <- b :: p in a + b;
    if a == [] {
      assert a + b == b;
    } else {
      assert (a + b)[1..] == a[1..] + b;
      SurvivorsSplit(a[1..], b, t);
    }
  }

  lemma {:induction false} SurvivorsInsert(l: seq<Packet>, k: nat, p: Packet, t: int)
    requires k <= |l| && Progressing(l) && Progressing(InsertAt(l, k, p)) && (p.periodic ==> p.period > 0)
    ensures multiset(Survivors(InsertAt(l, k, p), t)) == multiset(Survivor(p, t)) + multiset(Survivors(l, t))
  {
    assert l == l[..k] + l[k..];
    SurvivorsSplit(l[..k], l[k..], t);
    assert InsertAt(l, k, p) == l[..k] + ([p] + l[k..]);
    SurvivorsSplit(l[..k], [p] + l[k..], t);
    assert ([p] + l[k..])[1..] == l[k..];
  }

  lemma {:induction false} FireHeadSurvivors(l: seq<Packet>, t: int)
    requires l != [] && l[0].time <= t && Progressing(l)
    ensures Progressing(FireHead(l))
    ensures multiset(Survivors(FireHead(l), t)) == multiset(Survivors(l, t))
  {
    FireHeadWork(l, t);
    if l[0].periodic {
      var k := FireHeadInserts(l);
      SurvivorsInsert(l[1..], k, Advanced(l[0]), t);
    }
  }

  lemma {:induction false} NothingDue(l: seq<Packet>, t: int)
    requires Progressing(l)
    requires forall p <- l :: p.time > t
    ensures Survivors(l, t) == l
  {
    if l != [] {
      NothingDue(l[1..], t);
      assert l == [l[0]] + l[1..];
    }
  }

  /** The remaining list is a permutation of what the packets leave behind one
      by one: due one-shots are gone, due periodic packets have moved on. */
  lemma {:induction false} AdviseSurvivors(l: seq<Packet>, t: int)
    requires Sorted(l) && Progressing(l)
    ensures multiset(Advise(l, t).list) == multiset(Survivors(l, t))
    decreases Work(l, t)
  {
    if l == [] || l[0].time > t {
      NothingDue(l, t);
    } else {
      FireHeadWork(l, t);
      FireHeadOrder(l);
      FireHeadSurvivors(l, t);
      AdviseSurvivors(FireHead(l), t);
    }
  }

  /** The firings of one cookie, in the order they happened. */
  function FiringsOf(log: seq<Firing>, cookie: nat): seq<Firing> {
    if log == [] then []
    else (if log[0].cookie == cookie then [log[0]] else []) + FiringsOf(log[1..], cookie)
  }

  /** What the packets with one cookie fire, each on its own. */
  function Expected(l: seq<Packet>, cookie: nat, t: int): seq<Firing>
    requires Progressing(l)
  {
    if l == [] then []
    else (if l[0].cookie == cookie then Firings(l[0], t) else []) + Expected(l[1..], cookie, t)
  }

  lemma {:induction false} ExpectedSplit(a: seq<Packet>, b: seq<Packet>, cookie: nat, t: int)
    requires Progressing(a + b)
    ensures Progressing(a) && Progressing(b)
    ensures Expected(a + b, cookie, t) == Expected(a, cookie, t) + Expected(b, cookie, t)
  {
    assert forall p <- a :: p in a + b;
    assert forall p <- b :: p in a + b;
    if a == [] {
      assert a + b == b;
    } else {
      assert (a + b)[1..] == a[1..] + b;
      ExpectedSplit(a[1..], b, cookie, t);
    }
  }

  lemma {:induction false} ExpectedAbsent(l: seq<Packet>, cookie: nat, t: int)
    requires Progressing(l)
    requires forall p <- l :: p.cookie != cookie
    ensures Expected(l, cookie, t) == []
  {
    if l != [] { ExpectedAbsent(l[1..], cookie, t); }
  }

  lemma {:induction false} ExpectedInsert(l: seq<Packet>, k: nat, p: Packet, cookie: nat, t: int)
    requires k <= |l| && Progressing(l) && Progressing(InsertAt(l, k, p)) && (p.periodic ==> p.period > 0)
    requires forall q <- l :: q.cookie != p.cookie
    ensures Expected(InsertAt(l, k, p), cookie, t)
         == (if p.cookie == cookie then Firings(p, t) else []) + Expected(l, cookie, t)
  {
    assert l == l[..k] + l[k..];
    ExpectedSplit(l[..k], l[k..], cookie, t);
    assert InsertAt(l, k, p) == l[..k] + ([p] + l[k..]);
    ExpectedSplit(l[..k], [p] + l[k..], cookie, t);
    assert ([p] + l[k..])[1..] == l[k..];
    if p.cookie == cookie {
      ExpectedAbsent(l[..k], cookie, t);
    }
  }

  lemma {:induction false} FireHeadExpected(l: seq<Packet>, cookie: nat, t: int)
    requires l != [] && l[0].time <= t && Progressing(l) && DistinctCookies(l)
    ensures Progressing(FireHead(l))
    ensures Expected(l, cookie, t)
         == (if l[0].cookie == cookie then [Fire(l[0])] else []) + Expected(FireHead(l), cookie, t)
  {
    FireHeadWork(l, t);
    assert l[0] in l;
    assert forall q <- l[1..] :: q in l && q.cookie != l[0].cookie;
    if l[0].periodic {
      var k := FireHeadInserts(l);
      HeadExpected(l[0], l[1..], k, FireHead(l), cookie, t);
    }
  }

  lemma {:induction false} HeadExpected(head: Packet, rest: seq<Packet>, k: nat, m: seq<Packet>, cookie: nat, t: int)
    requires head.periodic && head.period > 0 && head.time <= t
    requires k <= |rest| && m == InsertAt(rest, k, Advanced(head)) && Progressing(rest) && Progressing(m)
    requires forall q <- rest :: q.cookie != head.cookie
    ensures (if head.cookie == cookie then Firings(head, t) else []) + Expected(rest, cookie, t)
         == (if head.cookie == cookie then [Fire(head)] else []) + Expected(m, cookie, t)
  {
    ExpectedInsert(rest, k, Advanced(head), cookie, t);
  }

  /** Every packet fires exactly when it would fire alone, in that order. */
  lemma {:induction false} AdviseFirings(l: seq<Packet>, cookie: nat, t: int)
    requires Sorted(l) && Progressing(l) && DistinctCookies(l)
    ensures FiringsOf(Advise(l, t).log, cookie) == Expected(l, cookie, t)
    decreases Work(l, t)
  {
    if l == [] || l[0].time > t {
      NothingExpected(l, cookie, t);
    } else {
      FireHeadWork(l, t);
      FireHeadOrder(l);
      SameCookies(l);
      FireHeadExpected(l, cookie, t);
      AdviseFirings(FireHead(l), cookie, t);
      assert Advise(l, t).log[1..] == Advise(FireHead(l), t).log;
    }
  }

  lemma {:induction false} NothingExpected(l: seq<Packet>, cookie: nat, t: int)
    requires Progressing(l)
    requires forall p <- l :: p.time > t
    ensures Expected(l, cookie, t) == []
  {
    if l != [] { NothingExpected(l[1..], cookie, t); }
  }

  /** The firings logged for one packet on the list. */
  lemma {:induction false} PacketFires(l: seq<Packet>, i: nat, t: int)
    requires Sorted(l) && Progressing(l) && DistinctCookies(l) && i < |l|
    ensures FiringsOf(Advise(l, t).log, l[i].cookie) == Firings(l[i], t)
  {
    AdviseFirings(l, l[i].cookie, t);
    assert l == l[..i] + ([l[i]] + l[i + 1..]);
    ExpectedSplit(l[..i], [l[i]] + l[i + 1..], l[i].cookie, t);
    ExpectedAbsent(l[..i], l[i].cookie, t);
    assert ([l[i]] + l[i + 1..])[1..] == l[i + 1..];
    ExpectedAbsent(l[i + 1..], l[i].cookie, t);
  }

  /** Waking up more often changes nothing: an Advise call at an earlier time
      followed by one at t2 fires and leaves what the single call would. */
  lemma {:induction false} AdviseInStages(l: seq<Packet>, t1: int, t2: int)
    requires Progressing(l) && t1 <= t2
    ensures var first := Advise(l, t1);
            && Progressing(first.list)
            && Advise(l, t2).list == Advise(first.list, t2).list
            && Advise(l, t2).log == first.log + Advise(first.list, t2).log
    decreases Work(l, t1)
  {
    if l != [] && l[0].time <= t1 {
      FireHeadWork(l, t1);
      FireHeadWork(l, t2);
      AdviseInStages(FireHead(l), t1, t2);
      var rest := Advise(FireHead(l), t1);
      LogAppend([Fire(l[0])], rest.log, Advise(rest.list, t2).log);
    }
  }

  lemma {:induction false} LogAppend(a: seq<Firing>, b: seq<Firing>, c: seq<Firing>)
    ensures a + (b + c) == a + b + c
  {
  }

  /** Remove takes out the first packet with the cookie. */
  lemma {:induction false} RemoveFirst(l: seq<Packet>, cookie: nat, i: nat)
    requires i <= |l|
    requires forall j :: 0 <= j < i ==> l[j].cookie != cookie
    requires i < |l| ==> l[i].cookie == cookie
    ensures Remove(l, cookie) == if i < |l| then l[..i] + l[i + 1..] else l
  {
    if i == 0 {
    } else {
      RemoveFirst(l[1..], cookie, i - 1);
      assert l == [l[0]] + l[1..];
    }
  }

  /** With distinct cookies that is the packet with the cookie, and nothing else. */
  lemma {:induction false} RemoveMeaning(l: seq<Packet>, cookie: nat)
    requires DistinctCookies(l)
    ensures forall p :: p in Remove(l, cookie) <==> p in l && p.cookie != cookie
    ensures DistinctCookies(Remove(l, cookie)) && (Sorted(l) ==> Sorted(Remove(l, cookie)))
  {
    if i :| 0 <= i < |l| && l[i].cookie == cookie {
      RemoveFirst(l, cookie, i);
      WithoutMembers(l, i);
      WithoutKeepsOrder(l, i);
    } else {
      RemoveFirst(l, cookie, |l|);
    }
  }

  lemma {:induction false} WithoutMembers(l: seq<Packet>, i: nat)
    requires i < |l| && DistinctCookies(l)
    ensures forall p :: p in l[..i] + l[i + 1..] <==> p in l && p.cookie != l[i].cookie
  {
    assert l == l[..i] + [l[i]] + l[i + 1..];
  }

  lemma {:induction false} WithoutKeepsOrder(l: seq<Packet>, i: nat)
    requires i < |l|
    ensures Sorted(l) ==> Sorted(l[..i] + l[i + 1..])
    ensures DistinctCookies(l) ==> DistinctCookies(l[..i] + l[i + 1..])
  {
    var r := l[..i] + l[i + 1..];
    assert forall j :: 0 <= j < |r| ==> r[j] == if j < i then l[j] else l[j + 1];
  }

  /** What every list on the schedule satisfies. */
  predicate ListOk(l: seq<Packet>, nextCookie: nat) {
    && Sorted(l) && DistinctCookies(l) && Progressing(l)
    && forall p <- l :: 0 < p.cookie <= nextCookie && p.time < MAX_TIME
  }

  /** The time of the first packet, or of the sentinel z. */
  function HeadTime(l: seq<Packet>): int { if l == [] then MAX_TIME else l[0].time }

  /** No packet that Advise(t) re-inserts reaches the sentinel's time, so that
      the search for its place stops before z (asserted by ShuntHead). */
  predicate StaysBelowMaxTime(l: seq<Packet>, t: int)
    requires Progressing(l)
  {
    forall p <- l :: Survivor(p, t) != [] ==> Survivor(p, t)[0].time < MAX_TIME
  }

  lemma {:induction false} StaysBelow(l: seq<Packet>, t: int)
    requires l != [] && l[0].time <= t && Progressing(l) && StaysBelowMaxTime(l, t)
    ensures Progressing(FireHead(l)) && StaysBelowMaxTime(FireHead(l), t)
    ensures l[0].periodic ==> Advanced(l[0]).time < MAX_TIME
  {
    FireHeadWork(l, t);
    FireHeadMembers(l);
    assert l[0] in l;
    if l[0].periodic {
      AdvancedStaysBelow(l[0], t);
    }
  }

  lemma {:induction false} AdvancedStaysBelow(p: Packet, t: int)
    requires p.periodic && p.period > 0 && p.time <= t
    requires Survivor(p, t) != [] ==> Survivor(p, t)[0].time < MAX_TIME
    ensures Advanced(p).time < MAX_TIME
    ensures Survivor(Advanced(p), t) == Survivor(p, t)
  {
    SurvivorTime(Advanced(p), t);
    Arithmetic.ProductBound(0, p.period, |Firings(Advanced(p), t)|, p.period);
  }

  /** A packet that is not a due one-shot is still there after Advise, moved on. */
  lemma {:induction false} SurvivorRemains(l: seq<Packet>, i: nat, t: int)
    requires Sorted(l) && Progressing(l) && i < |l| && Survivor(l[i], t) != []
    ensures Survivor(l[i], t)[0] in Advise(l, t).list
  {
    AdviseSurvivors(l, t);
    SurvivorAmong(l, i, t);
    assert Survivor(l[i], t)[0] in multiset(Survivors(l, t));
  }

  lemma {:induction false} SurvivorAmong(l: seq<Packet>, i: nat, t: int)
    requires Progressing(l) && i < |l| && Survivor(l[i], t) != []
    ensures Survivor(l[i], t)[0] in Survivors(l, t)
  {
    if i > 0 { SurvivorAmong(l[1..], i - 1, t); }
  }

  /** A due packet is in the log of Advise. */
  lemma {:induction false} DueIsLogged(l: seq<Packet>, i: nat, t: int)
    requires Sorted(l) && Progressing(l) && DistinctCookies(l) && i < |l| && l[i].time <= t
    ensures Fire(l[i]) in Advise(l, t).log
  {
    PacketFires(l, i, t);
    assert Firings(l[i], t)[0] == Fire(l[i]);
    LoggedAmong(Advise(l, t).log, l[i].cookie, Fire(l[i]));
  }

  lemma {:induction false} LoggedAmong(log: seq<Firing>, cookie: nat, f: Firing)
    requires f in FiringsOf(log, cookie)
    ensures f in log
  {
    if log != [] && f in FiringsOf(log[1..], cookie) { LoggedAmong(log[1..], cookie, f); }
  }

  /** Advise(l, t) comes to the list m after firing `log`. */
  ghost predicate Reaches(l: seq<Packet>, log: seq<Firing>, m: seq<Packet>, t: int)
    requires Progressing(l) && Progressing(m)
  {
    Advise(l, t) == Outcome(Advise(m, t).list, log + Advise(m, t).log)
  }

  lemma {:induction false} LogGrows(log: seq<Firing>, f: Firing, rest: seq<Firing>)
    ensures log + ([f] + rest) == log + [f] + rest
  {
  }

  lemma {:induction false} ReachesStep(l: seq<Packet>, log: seq<Firing>, m: seq<Packet>, t: int)
    requires Progressing(l) && Progressing(m) && Reaches(l, log, m, t)
    requires m != [] && m[0].time <= t
    ensures Progressing(FireHead(m)) && Reaches(l, log + [Fire(m[0])], FireHead(m), t)
  {
    FireHeadWork(m, t);
    var rest := Advise(FireHead(m), t).log;
    LogGrows(log, Fire(m[0]), rest);
  }

  /** An added packet is on the list, with all the others in their order: before it
      those due earlier, behind it those due no earlier. */
  lemma {:induction false} AddMeaning(l: seq<Packet>, p: Packet) returns (k: nat)
    requires Sorted(l)
    ensures k <= |l| && Add(l, p) == l[..k] + [p] + l[k..]
    ensures forall i :: 0 <= i < |l| ==> (l[i].time < p.time <==> i < k)
    ensures multiset(Add(l, p)) == multiset(l) + multiset{p}
  {
    k := Slot(l, p.time, false);
    InsertMultiset(l, k, p);
  }

  lemma {:induction false} AddMultiset(l: seq<Packet>, p: Packet)
    ensures multiset(Add(l, p)) == multiset(l) + multiset{p}
  {
    InsertMultiset(l, Slot(l, p.time, false), p);
  }

  lemma {:induction false} AddOk(l: seq<Packet>, p: Packet, nextCookie: nat)
    requires ListOk(l, nextCookie) && p.cookie == nextCookie + 1
    requires p.time < MAX_TIME && (p.periodic ==> p.period > 0)
    ensures ListOk(Add(l, p), nextCookie + 1)
    ensures HeadTime(Add(l, p)) == if Slot(l, p.time, false) == 0 then p.time else HeadTime(l)
    ensures Slot(l, p.time, false) == 0 <==> p.time <= HeadTime(l)
  {
    var k := Slot(l, p.time, false);
    InsertKeepsOrder(l, p, false);
    InsertDistinct(l, k, p);
    forall q <- Add(l, p)
      ensures q == p || q in l
    {
      InsertMultiset(l, k, p);
      assert q in multiset(Add(l, p));
    }
  }

  lemma {:induction false} RemoveOk(l: seq<Packet>, cookie: nat, nextCookie: nat)
    requires ListOk(l, nextCookie)
    ensures ListOk(Remove(l, cookie), nextCookie)
    ensures HeadTime(Remove(l, cookie)) >= HeadTime(l)
  {
    RemoveMeaning(l, cookie);
    var r := Remove(l, cookie);
    if r != [] {
      assert r[0] in l;
    }
  }

  lemma {:induction false} AdviseOk(l: seq<Packet>, t: int, nextCookie: nat)
    requires ListOk(l, nextCookie) && StaysBelowMaxTime(l, t)
    ensures ListOk(Advise(l, t).list, nextCookie)
    ensures HeadTime(Advise(l, t).list) > t || HeadTime(Advise(l, t).list) == MAX_TIME
    decreases Work(l, t)
  {
    if l != [] && l[0].time <= t {
      FireHeadWork(l, t);
      StaysBelow(l, t);
      FireHeadOk(l, nextCookie);
      AdviseOk(FireHead(l), t, nextCookie);
    }
  }

  lemma {:induction false} FireHeadOk(l: seq<Packet>, nextCookie: nat)
    requires l != [] && ListOk(l, nextCookie) && Progressing(FireHead(l))
    requires l[0].periodic ==> Advanced(l[0]).time < MAX_TIME
    ensures ListOk(FireHead(l), nextCookie)
  {
    FireHeadOrder(l);
    SameCookies(l);
    FireHeadMembers(l);
    assert l[0] in l;
  }

  /** Advise(t) turns the list l into m, and appends its firings to a log. */
  ghost predicate Advises(l: seq<Packet>, log: seq<Firing>, t: int, m: seq<Packet>, newLog: seq<Firing>) {
    Progressing(l) && m == Advise(l, t).list && newLog == log + Advise(l, t).log
  }

  predicate Without(l: seq<Packet>, cookie: nat) { forall p <- l :: p.cookie != cookie }

  /** Advise signals nothing but packets of the list, and leaves nothing but those. */
  lemma {:induction false} AdviseKnows(l: seq<Packet>, t: int, cookie: nat)
    requires Progressing(l) && Without(l, cookie)
    ensures Without(Advise(l, t).list, cookie) && forall f <- Advise(l, t).log :: f.cookie != cookie
    decreases Work(l, t)
  {
    if l != [] && l[0].time <= t {
      FireHeadWork(l, t);
      FireHeadMembers(l);
      assert l[0] in l;
      AdviseKnows(FireHead(l), t, cookie);
    }
  }

  /** When the head is not due, Advise has come to its end. */
  lemma {:induction false} ReachesEnd(l: seq<Packet>, start: seq<Firing>, log: seq<Firing>, m: seq<Packet>, t: int)
    requires Progressing(l) && Progressing(m) && Reaches(l, log, m, t) && (m == [] || m[0].time > t)
    ensures Advises(l, start, t, m, start + log)
  {
    assert log + [] == log;
  }
}
