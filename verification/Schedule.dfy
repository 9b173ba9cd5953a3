/** CAMSchedule: the advise list as an intrusive singly linked list between two
    sentinels, with a cache of free nodes (external/baseclasses/schedule.h and
    schedule.cpp). */
module Schedule {
  import opened AdviseList

  const CACHE_MAX := 5

  /** One node; its fields are the packet's, plus the link. */
  class AdvisePacket {
    var next: AdvisePacket?
    var cookie: nat
    var eventTime: int
    var period: int
    var notify: int
    var periodic: bool

    ghost function Value(): Packet
      reads this
    {
      Packet(cookie, eventTime, period, notify, periodic)
    }

    constructor () { next := null; }

    method Fill(time: int, period: int, notify: int, periodic: bool)
      modifies this`eventTime, this`period, this`notify, this`periodic
      ensures Value() == Packet(cookie, time, period, notify, periodic)
    {
      this.eventTime, this.period, this.notify, this.periodic := time, period, notify, periodic;
    }

    /** Links p in behind this node, which is number i of a chain. */
    method InsertAfter(p: AdvisePacket, ghost s: seq<AdvisePacket>, ghost i: nat)
      requires Chained(s) && Distinct(s) && i < |s| - 1 && this == s[i] && p !in s
      modifies this`next, p`next
      ensures Chained(s[..i + 1] + [p] + s[i + 1..])
    {
      assert s[i].next == s[i + 1];
      p.next := next;
      next := p;
      ghost var r := s[..i + 1] + [p] + s[i + 1..];
      forall j | 0 <= j < |r| - 1
        ensures r[j].next == r[j + 1]
      {
        if j < i {
          assert r[j] == s[j] && r[j + 1] == s[j + 1] && s[j] != s[i];
        } else if j > i + 1 {
          assert r[j] == s[j - 1] && r[j + 1] == s[j] && s[j - 1] != s[i];
        }
      }
    }

    /** Unlinks the node behind this one, which is number i of a chain. */
    method RemoveNext(ghost s: seq<AdvisePacket>, ghost i: nat) returns (p: AdvisePacket)
      requires Chained(s) && Distinct(s) && i < |s| - 2 && this == s[i]
      modifies this`next
      ensures p == s[i + 1] && Chained(s[..i + 1] + s[i + 2..])
    {
      assert s[i].next == s[i + 1] && s[i + 1].next == s[i + 2];
      p := next;
      next := p.next;
      ghost var r := s[..i + 1] + s[i + 2..];
      forall j | 0 <= j < |r| - 1
        ensures r[j].next == r[j + 1]
      {
        if j < i {
          assert r[j] == s[j] && r[j + 1] == s[j + 1] && s[j] != s[i];
        } else if j > i {
          assert r[j] == s[j + 1] && r[j + 1] == s[j + 2] && s[j + 1] != s[i];
        }
      }
    }
  }

  /** Every node but the last links to the one behind it. */
  ghost predicate Chained(s: seq<AdvisePacket>)
    reads s
  {
    forall i :: 0 <= i < |s| - 1 ==> s[i].next == s[i + 1]
  }

  class CAMSchedule {
    const head: AdvisePacket
    const z: AdvisePacket
    var nextCookie: nat
    var adviseCount: nat
    var adviseCache: AdvisePacket?
    var cacheCount: nat
    var eventSet: bool              // the auto-reset event m_ev

    ghost var links: seq<AdvisePacket>  // head, the nodes in list order, z
    ghost var cached: seq<AdvisePacket> // the free nodes
    ghost var repr: set<AdvisePacket>   // every node ever allocated here
    ghost var list: seq<Packet>         // what the nodes between the sentinels hold
    ghost var fired: seq<Firing>        // every signal given so far

    /** The linked structure: acyclic, from head to z, disjoint from the cache. */
    ghost predicate Shape()
      reads this, repr
    {
      && |links| >= 2 && links[0] == head && links[|links| - 1] == z
      && (forall n <- links :: n in repr) && (forall n <- cached :: n in repr)
      && Distinct(links) && Distinct(cached) && (forall n <- cached :: n !in links)
      && Chained(links) && z.next == null && Chained(cached)
      && (if cached == [] then adviseCache == null
          else adviseCache == cached[0] && cached[|cached| - 1].next == null)
      && adviseCount == |links| - 2
      && cacheCount == |cached| <= CACHE_MAX
    }

    /** The contents. */
    ghost predicate Holds(l: seq<Packet>)
      requires forall n <- links :: n in repr
      reads this, repr
    {
      && |links| == |l| + 2
      && forall i :: 0 <= i < |l| ==> links[i + 1].Value() == l[i]
    }

    ghost predicate Valid()
      reads this, repr
    {
      && Shape()
      && Holds(list)
      && z.eventTime == MAX_TIME
    }

    constructor ()
      ensures Valid() && list == [] && cached == [] && nextCookie == 0 && !eventSet && fired == []
      ensures fresh(repr)
    {
      var first := new AdvisePacket();
      var last := new AdvisePacket();
      first.next, first.eventTime := last, 0;
      last.next, last.eventTime := null, MAX_TIME;
      first.cookie, last.cookie := 0, 0;
      head, z := first, last;
      nextCookie, adviseCount, adviseCache, cacheCount, eventSet := 0, 0, null, 0, false;
      links, cached, list, fired, repr := [first, last], [], [], [], {first, last};
    }

    /** Links a free node in after position i. */
    method Link(prev: AdvisePacket, p: AdvisePacket, ghost i: nat)
      requires Shape() && i < |links| - 1 && prev == links[i]
      requires p !in links && p !in cached && p in repr
      modifies this`links, this`adviseCount, prev`next, p`next
      ensures Shape() && links == old(links)[..i + 1] + [p] + old(links)[i + 1..]
    {
      assert prev in links && z in links && prev != z;
      prev.InsertAfter(p, links, i);
      InsertedNodes(links, i + 1, p, repr, cached);
      links := links[..i + 1] + [p] + links[i + 1..];
      adviseCount := adviseCount + 1;
    }

    /** Unlinks the node after position i. */
    method Unlink(prev: AdvisePacket, ghost i: nat) returns (p: AdvisePacket)
      requires Shape() && i < |links| - 2 && prev == links[i]
      modifies this`links, this`adviseCount, prev`next
      ensures Shape() && links == old(links)[..i + 1] + old(links)[i + 2..]
      ensures p == old(links)[i + 1] && p !in links && p !in cached && p in repr
    {
      assert prev in links && prev != z;
      p := prev.RemoveNext(links, i);
      RemovedNodes(links, i + 1, repr, cached);
      links := links[..i + 1] + links[i + 2..];
      adviseCount := adviseCount - 1;
    }

    /** Delete: keeps the node for reuse unless five are kept already. */
    method Delete(p: AdvisePacket)
      requires Shape() && p !in links && p !in cached && p in repr
      modifies this`cached, this`adviseCache, this`cacheCount, p`next
      ensures Shape()
      ensures cached == if |old(cached)| < CACHE_MAX then [p] + old(cached) else old(cached)
    {
      if cacheCount < CACHE_MAX {
        p.next := adviseCache;
        adviseCache := p;
        cacheCount := cacheCount + 1;
        cached := [p] + cached;
      }
    }

    /** A node from the cache, or a new one. */
    method Allocate() returns (p: AdvisePacket)
      requires Shape()
      modifies this`cached, this`adviseCache, this`cacheCount, this`repr
      ensures Shape() && p !in links && p !in cached && p in repr
      ensures fresh(repr - old(repr)) && old(repr) <= repr
      ensures cached == if old(cached) == [] then [] else old(cached)[1..]
      ensures if old(cached) == [] then fresh(p) else p == old(cached)[0]
    {
      if adviseCache != null {
        p := adviseCache;
        adviseCache := p.next;
        cacheCount := cacheCount - 1;
        cached := cached[1..];
      } else {
        p := new AdvisePacket();
        repr := repr + {p};
      }
    }

    /** Where AddAdvisePacket's search stops. */
    method FindSlot(time: int, pastEqual: bool, ghost l: seq<Packet>) returns (prev: AdvisePacket, ghost i: nat)
      requires Shape() && Holds(l) && z.eventTime == MAX_TIME && time < MAX_TIME
      ensures i == Slot(l, time, pastEqual) && prev == links[i]
      ensures prev == links[Slot(l, time, pastEqual)] && (prev == head <==> Slot(l, time, pastEqual) == 0)
    {
      prev := head;
      i := 0;
      while true
        invariant i <= |l| && prev == links[i]
        invariant Slot(l, time, pastEqual) == i + Slot(l[i..], time, pastEqual)
        decreases |l| - i
      {
        assert prev.next == links[i + 1];
        var next := prev.next;
        if next.eventTime > time || (!pastEqual && next.eventTime == time) { break; }
        assert links[i + 1].Value() == l[i];
        assert l[i..][1..] == l[i + 1..];
        prev := next;
        i := i + 1;
      }
      assert i < |l| ==> links[i + 1].Value() == l[i];
    }

    /** Link, and what it does to the contents. */
    method LinkPacket(prev: AdvisePacket, p: AdvisePacket, ghost i: nat)
      requires Valid() && i <= |list| && prev == links[i]
      requires p !in links && p !in cached && p in repr
      modifies this`links, this`adviseCount, this`list, prev`next, p`next
      ensures Valid() && list == InsertAt(old(list), i, p.Value()) && p.Value() == old(p.Value())
      ensures links == old(links)[..i + 1] + [p] + old(links)[i + 1..]
    {
      ghost var was, l := links, list;
      Link(prev, p, i);
      list := InsertAt(l, i, p.Value());
      forall j | 0 <= j < |list|
        ensures links[j + 1].Value() == list[j]
      {
        ghost var k := if j < i then j else j - 1;
        if j != i {
          assert links[j + 1] == was[k + 1] && list[j] == l[k];
          assert was[k + 1].Value() == l[k];
        }
      }
    }

    method NewCookie(p: AdvisePacket) returns (result: nat)
      requires Valid() && p !in links && p !in cached && p in repr
      modifies this`nextCookie, p`cookie
      ensures Valid()
      ensures result == nextCookie == old(nextCookie) + 1
      ensures p.Value() == old(p.Value()).(cookie := result)
    {
      nextCookie := nextCookie + 1;
      p.cookie := nextCookie;
      result := nextCookie;
    }

    /** Links a node in front of the packets due no earlier, and sets the event when it
        comes first, because the thread must then wait for less. */
    method InsertInOrder(p: AdvisePacket)
      requires Valid() && p !in links && p !in cached && p in repr && p.eventTime < MAX_TIME
      modifies this`links, this`adviseCount, this`list, this`eventSet, repr`next
      ensures Valid() && adviseCount == old(adviseCount) + 1
      ensures p.Value() == old(p.Value()) && list == Add(old(list), p.Value())
      ensures eventSet == (old(eventSet) || Slot(old(list), p.eventTime, false) == 0)
    {
      var prev, i := FindSlot(p.eventTime, false, list);
      LinkPacket(prev, p, i);
      if prev == head {
        eventSet := true;
      }
    }

    /** The private AddAdvisePacket. */
    method AddNode(p: AdvisePacket) returns (result: nat)
      requires Valid() && p !in links && p !in cached && p in repr && p.eventTime < MAX_TIME
      modifies this`links, this`adviseCount, this`list, this`nextCookie, this`eventSet, repr
      ensures Valid()
      ensures result == nextCookie == old(nextCookie) + 1
      ensures p.Value() == old(p.Value()).(cookie := result) && list == Add(old(list), p.Value())
      ensures multiset(list) == multiset(old(list)) + multiset{p.Value()} && adviseCount == old(adviseCount) + 1
      ensures eventSet == (old(eventSet) || Slot(old(list), p.eventTime, false) == 0)
    {
      result := NewCookie(p);
      AddMultiset(list, p.Value());
      InsertInOrder(p);
    }

    /** A free node, filled in; the list is as it was. */
    method NewPacket(time: int, period: int, notify: int, periodic: bool) returns (p: AdvisePacket)
      requires Valid()
      modifies this`cached, this`adviseCache, this`cacheCount, this`repr, repr
      ensures Valid() && list == old(list)
      ensures p !in links && p !in cached && p in repr && fresh(repr - old(repr))
      ensures p.Value() == Packet(p.cookie, time, period, notify, periodic)
    {
      p := Allocate();
      p.Fill(time, period, notify, periodic);
    }

    /** AddAdvisePacket: the packet goes into a recycled node, or a new one. */
    method AddAdvisePacket(time: int, period: int, notify: int, periodic: bool) returns (result: nat)
      requires Valid() && time < MAX_TIME
      modifies this, repr
      ensures Valid() && fresh(repr - old(repr))
      ensures result == nextCookie == old(nextCookie) + 1
      ensures list == Add(old(list), Packet(result, time, period, notify, periodic))
      ensures multiset(list) == multiset(old(list)) + multiset{Packet(result, time, period, notify, periodic)}
      ensures adviseCount == old(adviseCount) + 1
      ensures eventSet == (old(eventSet) || Slot(old(list), time, false) == 0)
      ensures fired == old(fired)
    {
      var p := NewPacket(time, period, notify, periodic);
      result := AddNode(p);
    }

    /** Unlink, and what it does to the contents. */
    method UnlinkPacket(prev: AdvisePacket, ghost i: nat) returns (p: AdvisePacket)
      requires Valid() && i < |list| && prev == links[i]
      modifies this`links, this`adviseCount, this`list, prev`next
      ensures Valid() && list == old(list)[..i] + old(list)[i + 1..]
      ensures links == old(links)[..i + 1] + old(links)[i + 2..]
      ensures p == old(links)[i + 1] && p !in links && p !in cached && p in repr
      ensures p.Value() == old(p.Value()) == old(list)[i]
    {
      ghost var was, l := links, list;
      p := Unlink(prev, i);
      list := l[..i] + l[i + 1..];
      forall j | 0 <= j < |list|
        ensures links[j + 1].Value() == list[j]
      {
        ghost var k := if j < i then j else j + 1;
        assert links[j + 1] == was[k + 1] && list[j] == l[k];
        assert was[k + 1].Value() == l[k];
      }
    }

    /** Next(): the node after position i, or null when that is z. */
    method Next(prev: AdvisePacket, ghost i: nat) returns (p: AdvisePacket?)
      requires Valid() && i <= |list| && prev == links[i]
      ensures i == |list| <==> p == null
      ensures p != null ==> p == links[i + 1] && p.Value() == list[i]
    {
      assert prev.next == links[i + 1];
      p := prev.next;
      assert i < |list| ==> links[i + 1].next == links[i + 2];
      assert i < |list| ==> links[i + 1].Value() == list[i];
      if p.next == null {
        p := null;
      }
    }

    /** Unadvise's search: the node with the cookie, and the one before it. */
    method FindCookie(adviseCookie: nat) returns (prev: AdvisePacket, p: AdvisePacket?, ghost i: nat)
      requires Valid()
      ensures i <= |list| && (i == |list| <==> p == null)
      ensures forall j :: 0 <= j < i ==> list[j].cookie != adviseCookie
      ensures p != null ==> list[i].cookie == adviseCookie == p.cookie && prev == links[i] && p == links[i + 1]
    {
      prev := head;
      i := 0;
      p := Next(prev, i);
      while p != null && p.cookie != adviseCookie
        invariant i <= |list| && prev == links[i]
        invariant i == |list| <==> p == null
        invariant p != null ==> p == links[i + 1] && p.Value() == list[i]
        invariant forall j :: 0 <= j < i ==> list[j].cookie != adviseCookie
        decreases |list| - i
      {
        prev := p;
        i := i + 1;
        p := Next(prev, i);
      }
    }

    /** Delete, and what it leaves as it was. */
    method DeletePacket(p: AdvisePacket)
      requires Valid() && p !in links && p !in cached && p in repr
      modifies this`cached, this`adviseCache, this`cacheCount, p`next
      ensures Valid()
      ensures cached == if |old(cached)| < CACHE_MAX then [p] + old(cached) else old(cached)
    {
      Delete(p);
    }

    /** Unlinks and deletes the node after position i. */
    method DropAfter(prev: AdvisePacket, ghost i: nat)
      requires Valid() && i < |list| && prev == links[i]
      modifies this`links, this`adviseCount, this`list, this`cached, this`adviseCache, this`cacheCount, repr`next
      ensures Valid() && list == old(list)[..i] + old(list)[i + 1..]
    {
      var unlinked := UnlinkPacket(prev, i);
      DeletePacket(unlinked);
    }

    /** Unadvise: takes the packet with the cookie off the list, if there is one. */
    method Unadvise(adviseCookie: nat) returns (found: bool)
      requires Valid()
      modifies this`links, this`adviseCount, this`list, this`cached, this`adviseCache, this`cacheCount, repr`next
      ensures Valid()
      ensures list == Remove(old(list), adviseCookie)
      ensures found <==> HasCookie(old(list), adviseCookie)
    {
      var prev, p, i := FindCookie(adviseCookie);
      RemoveFirst(list, adviseCookie, i);
      found := p != null;
      if p != null {
        DropAfter(prev, i);
      }
    }

    /** ShuntHead: moves the first packet behind everything due no later. */
    method ShuntHead()
      requires Valid() && list != [] && list[0].time < MAX_TIME
      modifies this`links, this`adviseCount, this`list, repr`next
      ensures Valid() && list == Shunt(old(list))
    {
      var p := Next(head, 0);
      var prev, i := FindSlot(p.eventTime, true, list);
      assert i == Slot(list[1..], list[0].time, true) + 1;
      if prev != p {
        MoveHead(prev, p, i);
      }
    }

    /** Advances the first packet by its period, in place. */
    method AdvanceHead(p: AdvisePacket)
      requires Valid() && list != [] && p == links[1]
      modifies this`list, p`eventTime
      ensures Valid() && list == [Advanced(old(list)[0])] + old(list)[1..]
    {
      assert links[0 + 1].Value() == list[0];
      p.eventTime := p.eventTime + p.period;
      list := [Advanced(list[0])] + list[1..];
    }

    /** A periodic head moves on. */
    method AdvanceAndShunt(p: AdvisePacket)
      requires Valid() && list != [] && p == links[1] && Advanced(list[0]).time < MAX_TIME
      modifies this`links, this`adviseCount, this`list, repr`next, p`eventTime
      ensures Valid() && list == Shunt([Advanced(old(list)[0])] + old(list)[1..])
    {
      AdvanceHead(p);
      ShuntHead();
    }

    /** The body of Advise's loop: one due packet fires. */
    method FireFirst(pAdvise: AdvisePacket)
      requires Valid() && list != [] && pAdvise == links[1]
      requires list[0].periodic ==> Advanced(list[0]).time < MAX_TIME
      modifies this`links, this`adviseCount, this`list, this`fired, this`cached, this`adviseCache, this`cacheCount
      modifies repr`next, repr`eventTime
      ensures Valid() && list == FireHead(old(list))
      ensures fired == old(fired) + [Fire(old(list)[0])]
    {
      assert links[0 + 1].Value() == list[0];
      fired := fired + [Fire(list[0])];
      if pAdvise.periodic {
        AdvanceAndShunt(pAdvise);
      } else {
        DropHead();
      }
    }

    /** A one-shot head is gone. */
    method DropHead()
      requires Valid() && list != []
      modifies this`links, this`adviseCount, this`list, this`cached, this`adviseCache, this`cacheCount, repr`next
      ensures Valid() && list == old(list)[1..]
    {
      DropAfter(head, 0);
    }

    /** One iteration of Advise's loop, up to the next packet. */
    method FireDue(pAdvise: AdvisePacket, rtTime: int, ghost before: seq<Packet>, ghost start: seq<Firing>,
                   ghost log: seq<Firing>)
      returns (pNext: AdvisePacket?, ghost log': seq<Firing>)
      requires fired == start + log
      requires Progressing(before) && Progressing(list) && Reaches(before, log, list, rtTime)
      requires Valid() && list != [] && pAdvise == links[1] && list[0].time <= rtTime
      requires StaysBelowMaxTime(list, rtTime)
      modifies this`links, this`adviseCount, this`list, this`fired, this`cached, this`adviseCache, this`cacheCount
      modifies repr`next, repr`eventTime
      ensures Valid() && Progressing(list) && StaysBelowMaxTime(list, rtTime)
      ensures fired == start + log' && Reaches(before, log', list, rtTime)
      ensures Work(list, rtTime) < Work(old(list), rtTime)
      ensures if list == [] then pNext == null else pNext == links[1] && pNext.eventTime == list[0].time
    {
      FireHeadWork(list, rtTime);
      StaysBelow(list, rtTime);
      ReachesStep(before, log, list, rtTime);
      log' := log + [Fire(list[0])];
      FireFirst(pAdvise);
      pNext := Next(head, 0);
    }

    /** Advise: fires everything due at rtTime, and returns the next due time. */
    method Advise(rtTime: int) returns (rtNextTime: int)
      requires Valid() && Progressing(list) && StaysBelowMaxTime(list, rtTime)
      modifies this`links, this`adviseCount, this`list, this`fired, this`cached, this`adviseCache, this`cacheCount
      modifies repr`next, repr`eventTime
      ensures Valid()
      ensures Advises(old(list), old(fired), rtTime, list, fired)
      ensures rtNextTime == HeadTime(list)
    {
      ghost var before, start := list, fired;
      ghost var log: seq<Firing> := [];
      var pAdvise := Next(head, 0);
      while pAdvise != null && rtTime >= pAdvise.eventTime
        invariant repr == old(repr) && Valid() && Progressing(list)
        invariant StaysBelowMaxTime(list, rtTime)
        invariant fired == start + log
        invariant Reaches(before, log, list, rtTime)
        invariant if list == [] then pAdvise == null else pAdvise == links[1] && pAdvise.eventTime == list[0].time
        decreases Work(list, rtTime)
      {
        pAdvise, log := FireDue(pAdvise, rtTime, before, start, log);
      }
      ReachesEnd(before, start, log, list, rtTime);
      rtNextTime := if pAdvise == null then z.eventTime else pAdvise.eventTime;
    }

    /** Moves the first node behind position i. */
    method MoveHead(prev: AdvisePacket, p: AdvisePacket, ghost i: nat)
      requires Valid() && 1 < i <= |list| && prev == links[i] && p == links[1]
      modifies this`links, this`adviseCount, this`list, repr`next
      ensures Valid() && list == InsertAt(old(list)[1..], i - 1, old(list)[0])
    {
      var unlinked := UnlinkPacket(head, 0);
      assert list == old(list)[1..];
      LinkPacket(prev, unlinked, i - 1);
    }
  }

  ghost predicate HasCookie(l: seq<Packet>, cookie: nat) { exists i :: 0 <= i < |l| && l[i].cookie == cookie }

  ghost predicate Distinct<T>(s: seq<T>) {
    forall i, j :: 0 <= i < j < |s| ==> s[i] != s[j]
  }

  /** A free node among the nodes of a list. */
  lemma {:induction false} InsertedNodes<T>(s: seq<T>, k: nat, x: T, repr: set<T>, cached: seq<T>)
    requires Distinct(s) && 0 < k < |s| && x !in s && x !in cached && x in repr
    requires (forall n <- s :: n in repr) && forall n <- cached :: n !in s
    ensures var r := s[..k] + [x] + s[k..];
            && |r| == |s| + 1 && r[0] == s[0] && r[|r| - 1] == s[|s| - 1] && Distinct(r)
            && (forall n <- r :: n in repr) && forall n <- cached :: n !in r
  {
    var r := s[..k] + [x] + s[k..];
    assert forall n <- r :: n in s || n == x;
  }

  /** A list without one of its nodes. */
  lemma {:induction false} RemovedNodes<T>(s: seq<T>, k: nat, repr: set<T>, cached: seq<T>)
    requires Distinct(s) && 0 < k < |s| - 1
    requires (forall n <- s :: n in repr) && forall n <- cached :: n !in s
    ensures var r := s[..k] + s[k + 1..];
            && |r| == |s| - 1 && r[0] == s[0] && r[|r| - 1] == s[|s| - 1] && Distinct(r) && s[k] !in r
            && s[k] in repr && s[k] !in cached
            && (forall n <- r :: n in repr) && forall n <- cached :: n !in r
  {
    var r := s[..k] + s[k + 1..];
    assert s[k] in s && forall n <- r :: n in s;
  }
}
