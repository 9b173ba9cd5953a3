/** CPullPin: pulls an aligned byte range from an asynchronous reader, with up to
    two requests in flight (external/baseclasses/pullpin.cpp, pullpin.h). */
module PullPin {
  import opened Arithmetic
  import opened MachineWords

  const UNITS := 10000000

  /** Bitwise and, on nonnegative numbers. */
  function And(x: nat, y: nat): nat {
    if x == 0 || y == 0 then 0
    else 2 * And(x / 2, y / 2) + (if x % 2 == 1 && y % 2 == 1 then 1 else 0)
  }

  /** `ll & ~(lAlign - 1)`: the complement of lAlign - 1 is -lAlign, extended to
      64 bits. */
  function AlignDown(ll: i64, lAlign: i32): i64
    requires lAlign > 0
  {
    AndBound(Unsigned64(ll), Unsigned64(-(lAlign as int)));
    Signed64(And(Unsigned64(ll), Unsigned64(-(lAlign as int))))
  }

  function AlignUp(ll: i64, lAlign: i32): i64
    requires lAlign > 0 && ll + lAlign <= MAX64
  {
    AlignDown(ll + (lAlign - 1), lAlign)
  }

  lemma {:induction false} AndBound(x: nat, y: nat)
    ensures And(x, y) <= x
  {
    if x != 0 && y != 0 { AndBound(x / 2, y / 2); }
  }

  /** Masking off the low k bits of a w-bit word. */
  lemma {:induction false} AndMask(x: nat, k: nat, w: nat)
    requires k <= w && x < Pow2(w)
    ensures Pow2(k) <= Pow2(w)
    ensures And(x, Pow2(w) - Pow2(k)) == x - x % Pow2(k)
  {
    Pow2Monotone(k, w);
    if k == 0 {
      AndOnes(x, w);
    } else {
      AndMask(x / 2, k - 1, w - 1);
      MaskMore(x, Pow2(w - 1), Pow2(k - 1));
    }
  }

  lemma {:induction false} AndOnes(x: nat, w: nat)
    requires x < Pow2(w)
    ensures And(x, Pow2(w) - 1) == x
  {
    if w > 0 {
      AndOnes(x / 2, w - 1);
      MaskAll(x, Pow2(w - 1));
    }
  }

  lemma {:induction false} MaskAll(x: nat, half: nat)
    requires half > 0 && x < 2 * half && And(x / 2, half - 1) == x / 2
    ensures And(x, 2 * half - 1) == x
  {
    if half > 1 { assert (2 * half - 1) / 2 == half - 1; }
  }

  lemma {:induction false} MaskMore(x: nat, half: nat, m: nat)
    requires 0 < m <= half && And(x / 2, half - m) == x / 2 - x / 2 % m
    ensures And(x, 2 * half - 2 * m) == x - x % (2 * m)
  {
    HalfRemainder(x, m);
    assert (2 * half - 2 * m) / 2 == half - m;
    if x > 0 && half == m { assert x / 2 == x / 2 % m; }
  }

  lemma {:induction false} HalfRemainder(x: nat, m: nat)
    requires m > 0
    ensures x % (2 * m) == x % 2 + 2 * (x / 2 % m)
  {
    var q, r := x / 2 / m, x / 2 % m;
    assert x / 2 == m * q + r;
    assert x == 2 * m * q + (x % 2 + 2 * r);
    QuotientUnique(x, 2 * m, q, x % 2 + 2 * r);
  }

  lemma {:induction false} ScaleMonotone(m: nat, a: int, b: int)
    requires a <= b
    ensures m * a <= m * b
  {
    assert m * (b - a) == m * b - m * a;
  }

  /** Adding a multiple of m moves the multiples of m along. */
  lemma {:induction false} ShiftByMultiple(x: int, c: int, m: nat)
    requires m > 0
    ensures (x + m * c) % m == x % m
    ensures x >= m * c ==> x - x % m >= m * c
  {
    var q := x / m;
    assert x == m * q + x % m;
    assert m * (q + c) == m * q + m * c;
    QuotientUnique(x + m * c, m, q + c, x % m);
    if c <= q {
      ScaleMonotone(m, c, q);
    } else {
      ScaleMonotone(m, q + 1, c);
      assert m * (q + 1) == m * q + m;
    }
  }

  /** For a power of two, aligning down gives the largest multiple that is not
      greater, for negative numbers too. */
  lemma {:induction false} AlignDownMeaning(ll: i64, lAlign: i32, k: nat)
    requires k <= 30 && lAlign == Pow2(k)
    ensures AlignDown(ll, lAlign) == ll - ll % lAlign
    ensures AlignDown(ll, lAlign) <= ll < AlignDown(ll, lAlign) + lAlign
    ensures AlignDown(ll, lAlign) % lAlign == 0
  {
    MultipleBelow(ll, lAlign);
    Pow2Words(32);
    MaskLow(ll, lAlign, k);
    HalfWord(k);
    MaskedWord(ll, lAlign, Pow2(63 - k));
  }

  lemma {:induction false} MaskLow(ll: i64, lAlign: i32, k: nat)
    requires k <= 30 && lAlign == Pow2(k) && Pow2(64) == TWO64
    ensures lAlign > 0
    ensures var x := Unsigned64(ll); And(x, Unsigned64(-(lAlign as int))) == x - x % lAlign
  {
    AndMask(Unsigned64(ll), k, 64);
  }

  lemma {:induction false} HalfWord(k: nat)
    requires k <= 30
    ensures Pow2(k) * Pow2(63 - k) == TWO63
  {
    Pow2Words(32);
    Pow2Add(k, 63 - k);
  }

  /** Clearing the low bits of the word clears them in the signed number. */
  lemma {:induction false} MaskedWord(ll: i64, m: nat, half: nat)
    requires m > 0 && m * half == TWO63
    ensures var x := Unsigned64(ll); Signed64(x - x % m) == ll - ll % m
  {
    var x := Unsigned64(ll);
    assert m * (2 * half) == TWO64;
    ShiftByMultiple(ll, 2 * half, m);
    ShiftByMultiple(x, half, m);
  }

  /** Aligning up gives the least multiple that is not smaller. */
  lemma {:induction false} AlignUpMeaning(ll: i64, lAlign: i32, k: nat)
    requires k <= 30 && lAlign == Pow2(k) && ll + lAlign <= MAX64
    ensures var r := AlignUp(ll, lAlign); r % lAlign == 0 && r - lAlign < ll <= r
  {
    AlignDownMeaning(ll + (lAlign - 1), lAlign, k);
  }

  lemma {:induction false} MultipleBelow(y: int, m: nat)
    requires m > 0
    ensures (y - y % m) % m == 0
  {
    assert y == m * (y / m) + y % m;
    QuotientUnique(y - y % m, m, y / m, 0);
  }

  // ---- Pulling ----

  /** A time in units as a byte position: division truncated toward zero. */
  function Seconds(t: i64): (s: i64)
    ensures -TWO63 / UNITS <= s <= MAX64 / UNITS
  {
    TruncDiv(t, UNITS)
  }

  /** A requested byte range, in time units. */
  datatype Range = Range(start: int, stop: int)

  /** What the reader, the allocator and the owner answer, call by call: the size
      of the i-th buffer; which buffer or request fails; after which delivery
      the receiver stops, or fails; and when another request interrupts. */
  datatype Environment = Environment(size: nat -> nat, fails: nat -> bool, stops: nat -> bool, deliveryFails: nat -> bool,
                                     interrupts: nat -> bool)

  datatype Outcome = EndOfStream | Interrupted | Failed | StoppedByReceiver

  /** Consecutive nonempty ranges that cover [from, to). */
  predicate Tiles(rs: seq<Range>, from: int, to: int) {
    && (rs == [] ==> from == to)
    && (rs != [] ==> rs[0].start == from && rs[|rs| - 1].stop == to)
    && (forall i :: 0 <= i < |rs| ==> rs[i].start < rs[i].stop)
    && (forall i :: 0 < i < |rs| ==> rs[i].start == rs[i - 1].stop)
  }

  /** The pull thread's work on one range: the requests made so far, how many are
      in flight, and the most there ever were. */
  class CPullPin {
    const env: Environment
    var requests: seq<Range>
    var delivered: nat
    var inFlight: nat
    var mostInFlight: nat

    constructor (env: Environment)
      ensures this.env == env && requests == [] && delivered == inFlight == mostInFlight == 0
    {
      this.env := env;
      requests, delivered, inFlight, mostInFlight := [], 0, 0, 0;
    }

    ghost predicate Valid(from: int, current: int)
      reads this
    {
      && (forall i :: env.size(i) > 0)
      && Tiles(requests, from, current)
      && delivered + inFlight == |requests| && inFlight <= mostInFlight
    }

    /** Nothing has failed so far, and the receiver has not stopped the pin. */
    ghost predicate Clean()
      reads this
    {
      && (forall i :: 0 <= i < |requests| ==> !env.fails(i))
      && (forall i :: 0 <= i < delivered ==> !env.deliveryFails(i) && !env.stops(i))
    }

    /** Why the pin has stopped where it did. Reaching the end means that nothing failed
        and that no sample was refused, but for the last one if two are in flight: its
        answer is not looked at. */
    ghost predicate Because(outcome: Outcome, lastUnseen: bool)
      reads this
    {
      match outcome
      case EndOfStream =>
        && (forall i :: 0 <= i < |requests| ==> !env.fails(i)) && (forall i :: 0 <= i < delivered ==> !env.deliveryFails(i))
        && (forall i :: 0 <= i < delivered - (if lastUnseen then 1 else 0) ==> !env.stops(i))
      case Interrupted => env.interrupts(|requests|)
      case Failed => env.fails(|requests|) || (delivered > 0 && env.deliveryFails(delivered - 1))
      case StoppedByReceiver => delivered > 0 && env.stops(delivered - 1) && !env.deliveryFails(delivered - 1)
    }

    /** Before Process: buffers are not empty, and nothing was requested yet. */
    ghost predicate Idle()
      reads this
    {
      (forall i :: env.size(i) > 0) && requests == [] && delivered == inFlight == mostInFlight == 0
    }

    /** QueueSample: one buffer, requested for the next stretch of the range. */
    method QueueSample(tCurrent: int, tAlignStop: int, ghost from: int) returns (ok: bool, tNext: int)
      requires Valid(from, tCurrent) && tCurrent < tAlignStop
      modifies this`requests, this`inFlight, this`mostInFlight
      ensures ok ==> Valid(from, tNext) && tCurrent < tNext <= tAlignStop && inFlight == old(inFlight) + 1
      ensures ok ==> mostInFlight == if inFlight > old(mostInFlight) then inFlight else old(mostInFlight)
      ensures !ok ==> tNext == tCurrent && requests == old(requests) && mostInFlight == old(mostInFlight)
      ensures ok <==> !env.fails(|old(requests)|)
      ensures ok ==> requests == old(requests) + [Range(tCurrent, tNext)]
      ensures ok ==> tNext == tAlignStop || tNext - tCurrent == env.size(|old(requests)|) * UNITS
    {
      tNext := tCurrent;
      ok := !env.fails(|requests|);
      if ok {
        var tStopThis := tCurrent + env.size(|requests|) * UNITS;
        if tStopThis > tAlignStop {
          tStopThis := tAlignStop;
        }
        requests := requests + [Range(tCurrent, tStopThis)];
        tNext := tStopThis;
        inFlight := inFlight + 1;
        if inFlight > mostInFlight {
          mostInFlight := inFlight;
        }
      }
    }

    /** CollectAndDeliver: waits for one request and passes its sample on. */
    method CollectAndDeliver(ghost from: int, ghost current: int) returns (failed: bool, stopped: bool)
      requires Valid(from, current) && inFlight > 0
      modifies this`delivered, this`inFlight
      ensures Valid(from, current) && inFlight == old(inFlight) - 1 && delivered == old(delivered) + 1
      ensures failed == env.deliveryFails(old(delivered)) && stopped == env.stops(old(delivered))
    {
      failed, stopped := env.deliveryFails(delivered), env.stops(delivered);
      delivered := delivered + 1;
      inFlight := inFlight - 1;
    }

    /** The inner loop: queue one more, and wait for the oldest. */
    method PullAll(tCurrent: int, tAlignStop: int, ghost from: int) returns (outcome: Outcome, tEnd: int)
      requires Valid(from, tCurrent) && tCurrent <= tAlignStop && Clean()
      modifies this
      ensures Because(outcome, false) && outcome != Interrupted
      ensures outcome == EndOfStream ==> Valid(from, tEnd) && tEnd == tAlignStop && inFlight == old(inFlight)
      ensures mostInFlight <= if old(mostInFlight) > old(inFlight) + 1 then old(mostInFlight) else old(inFlight) + 1
    {
      tEnd := tCurrent;
      while tEnd < tAlignStop
        invariant Valid(from, tEnd) && tEnd <= tAlignStop && inFlight == old(inFlight) && Clean()
        invariant mostInFlight <= if old(mostInFlight) > old(inFlight) + 1 then old(mostInFlight) else old(inFlight) + 1
        decreases tAlignStop - tEnd
      {
        var ok;
        ok, tEnd := QueueSample(tEnd, tAlignStop, from);
        if !ok { return Failed, tEnd; }
        var failed, stopped := CollectAndDeliver(from, tEnd);
        if failed { return Failed, tEnd; }
        if stopped { return StoppedByReceiver, tEnd; }
      }
      outcome := EndOfStream;
    }

    /** The asynchronous loops of Process. */
    method PullAsync(tStart: int, tAlignStop: int, cBuffers: int) returns (outcome: Outcome)
      requires Idle()
      modifies this
      ensures mostInFlight <= if cBuffers > 1 then 2 else 1
      ensures Because(outcome, cBuffers > 1)
      ensures outcome == EndOfStream ==>
                inFlight == 0 && Tiles(requests, tStart, if tAlignStop > tStart then tAlignStop else tStart)
    {
      var tCurrent := tStart;
      while tCurrent < tAlignStop
        invariant Valid(tStart, tCurrent) && inFlight == 0
        invariant mostInFlight <= if cBuffers > 1 then 2 else 1
        invariant tCurrent == tStart || tCurrent <= tAlignStop
        invariant if tCurrent < tAlignStop then Clean() else Because(EndOfStream, cBuffers > 1)
        decreases tAlignStop - tCurrent
      {
        if env.interrupts(|requests|) { return Interrupted; }
        if cBuffers > 1 {
          var ok;
          ok, tCurrent := QueueSample(tCurrent, tAlignStop, tStart);
          if !ok { return Failed; }
        }
        outcome, tCurrent := PullAll(tCurrent, tAlignStop, tStart);
        if outcome != EndOfStream { return; }
        if cBuffers > 1 {
          var failed, stopped := CollectAndDeliver(tStart, tCurrent);
          if failed { return Failed; }
        }
      }
      outcome := EndOfStream;
    }

    /** The synchronous loop: each read completes before the next is made. */
    method PullSync(tStart: int, tAlignStop: int) returns (outcome: Outcome)
      requires Idle()
      modifies this
      ensures mostInFlight <= 1 && Because(outcome, false)
      ensures outcome == EndOfStream ==>
                inFlight == 0 && Tiles(requests, tStart, if tAlignStop > tStart then tAlignStop else tStart)
    {
      var tCurrent := tStart;
      while tCurrent < tAlignStop
        invariant Valid(tStart, tCurrent) && inFlight == 0 && mostInFlight <= 1 && Clean()
        invariant tCurrent == tStart || tCurrent <= tAlignStop
        decreases tAlignStop - tCurrent
      {
        if env.interrupts(|requests|) { return Interrupted; }
        var ok;
        ok, tCurrent := QueueSample(tCurrent, tAlignStop, tStart);
        if !ok { return Failed; }
        var failed, stopped := CollectAndDeliver(tStart, tCurrent);
        if failed { return Failed; }
        if stopped { return StoppedByReceiver; }
      }
      outcome := EndOfStream;
    }

    /** Process, for the range [start, stop) of a stream of the given duration. */
    method Process(start: i64, stop: i64, duration: i64, cbAlign: i32, ghost k: nat, cBuffers: int, bSync: bool)
      returns (outcome: Outcome)
      requires Idle()
      requires k <= 30 && cbAlign == Pow2(k)
      modifies this
      ensures mostInFlight <= if cBuffers > 1 && !bSync then 2 else 1
      ensures stop <= start ==> outcome == EndOfStream && requests == []
      ensures Because(outcome, cBuffers > 1 && !bSync)
      ensures outcome == EndOfStream && start < stop ==>
                var end := if stop < duration then stop else duration;
                var from := AlignDown(Seconds(start), cbAlign) * UNITS;
                var to := AlignUp(Seconds(end), cbAlign) * UNITS;
                inFlight == 0 && Tiles(requests, from, if to > from then to else from)
    {
      if stop <= start {
        return EndOfStream;
      }
      var tStart := AlignDown(Seconds(start), cbAlign) * UNITS;
      var tStop := if stop > duration then duration else stop;
      var tAlignStop := AlignUp(Seconds(tStop), cbAlign) * UNITS;
      if !bSync {
        outcome := PullAsync(tStart, tAlignStop, cBuffers);
      } else {
        outcome := PullSync(tStart, tAlignStop);
      }
    }
  }
}
