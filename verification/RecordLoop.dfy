/** RecordLoop of the engine: sends the current frame to tape again and again,
    straight from the queue's storage, while the source thread keeps filling the
    queue (engine/DVEngine.cpp). */
module RecordLoop {
  import opened FrameQueue
  import opened Options

  /** What the source thread does between two steps of the loop. */
  datatype Feed = Offer(f: FrameData) | Close

  /** One turn of the loop: what the source does while the frame is sent, before each
      of its bytes is read; the two readings of the engine's state; and what the
      source does before Get. */
  datatype Turn = Turn(during: seq<seq<Feed>>, idle: bool, recording: bool, after: seq<Feed>)

  predicate IsPrefix<T(==)>(a: seq<T>, b: seq<T>) { a <= b }

  /** Runs the source until it has nothing left or blocks in Put. */
  method RunSource(q: FrameQueue, feed: seq<Feed>)
    requires q.Valid()
    modifies q`tail, q`load, q`contents, q`accepted, q`closed, q.storage, q.durations, q.lengths
    ensures q.Valid() && IsPrefix(old(q.accepted), q.accepted)
    ensures old(q.closed) ==> q.closed && q.contents == old(q.contents) && q.accepted == old(q.accepted)
  {
    for i := 0 to |feed|
      invariant q.Valid() && IsPrefix(old(q.accepted), q.accepted)
      invariant q.taken == old(q.taken) && q.head == old(q.head)
      invariant old(q.closed) ==> q.closed && q.contents == old(q.contents) && q.accepted == old(q.accepted)
    {
      match feed[i]
      case Offer(f) =>
        if |f.bytes| <= q.frameSize && !q.closed && q.load == q.capacity { return; }
        var r := q.Put(f.duration, f.bytes);
      case Close => q.Close();
    }
  }

  lemma {:induction false} OneMore(bytes: seq<byte>, k: nat)
    requires k < |bytes|
    ensures bytes[..k + 1] == bytes[..k] + [bytes[k]]
  {
  }

  /** What the source may have changed: more is accepted, but nothing once the queue
      is closed and drained. */
  datatype View = View(accepted: seq<FrameData>, contents: seq<FrameData>, closed: bool)

  ghost function ViewOf(q: FrameQueue): View
    reads q
  {
    View(q.accepted, q.contents, q.closed)
  }

  predicate Follows(v: View, w: View) {
    IsPrefix(v.accepted, w.accepted) && (v.closed && v.contents == [] ==> w == v)
  }

  lemma {:induction false} FollowsOn(u: View, v: View, w: View)
    requires Follows(u, v) && Follows(v, w)
    ensures Follows(u, w)
  {
  }

  method SendByte(q: FrameQueue, frame: Frame, k: nat, feed: seq<Feed>) returns (b: byte)
    requires q.Valid() && q.IsLent(frame) && k < frame.length
    modifies q`tail, q`load, q`contents, q`accepted, q`closed, q.storage, q.durations, q.lengths
    ensures q.Valid() && q.IsLent(frame) && Follows(old(ViewOf(q)), ViewOf(q)) && q.taken == old(q.taken)
    ensures frame.length == |q.taken[|q.taken| - 1].bytes| && b == q.taken[|q.taken| - 1].bytes[k]
  {
    RunSource(q, feed);
    b := q.Read(frame, k);
  }

  /** HandleFrame on the frame in hand: its bytes are read from the ring one by one,
      while the source goes on. */
  method SendCurrent(q: FrameQueue, frame: Frame, during: seq<seq<Feed>>) returns (f: FrameData)
    requires q.Valid() && q.IsLent(frame)
    modifies q`tail, q`load, q`contents, q`accepted, q`closed, q.storage, q.durations, q.lengths
    ensures q.Valid() && q.IsLent(frame) && Follows(old(ViewOf(q)), ViewOf(q))
    ensures f == q.taken[|q.taken| - 1]
  {
    var bytes: seq<byte> := [];
    ghost var before := ViewOf(q);
    ghost var taken, lent := q.taken, q.taken[|q.taken| - 1];
    for k := 0 to frame.length
      invariant q.Valid() && q.IsLent(frame) && Follows(before, ViewOf(q)) && q.taken == taken
      invariant frame.length == |lent.bytes| && bytes == lent.bytes[..k]
    {
      ghost var view := ViewOf(q);
      var b := SendByte(q, frame, k, if k < |during| then during[k] else []);
      FollowsOn(before, view, ViewOf(q));
      OneMore(lent.bytes, k);
      bytes := bytes + [b];
    }
    f := FrameData(frame.duration, bytes);
  }

  datatype NextFrame = Got(frame: Frame) | Drained | Blocked

  /** The wait in Get, which may last for good, and Get. */
  method TakeNext(q: FrameQueue, feed: seq<Feed>) returns (r: NextFrame)
    requires q.Valid()
    modifies q, q.storage, q.durations, q.lengths
    ensures q.Valid() && IsPrefix(old(q.accepted), q.accepted)
    ensures r.Got? ==> |q.taken| == |old(q.taken)| + 1 && q.IsLent(r.frame)
    ensures !r.Got? ==> q.taken == old(q.taken) && q.head == old(q.head)
    ensures r == Drained ==> q.closed && q.contents == []
    ensures r == Blocked ==> !q.closed && q.contents == []
    ensures r.Got? ==> old(q.contents) != [] || !old(q.closed)
    ensures old(q.closed && q.contents == []) ==> q.closed && q.contents == [] && q.accepted == old(q.accepted)
  {
    RunSource(q, feed);
    if !q.closed && q.load == 0 { return Blocked; }
    var next := q.Get();
    r := if next.Some? then Got(next.value) else Drained;
  }

  /** Frame i of what was sent is the accepted frame number at[i]: frames go out
      in order, none is skipped, and a repeated frame is the same frame. */
  ghost predicate InOrder(sent: seq<FrameData>, at: seq<nat>, accepted: seq<FrameData>) {
    && |sent| == |at|
    && (forall i :: 0 <= i < |at| ==> at[i] < |accepted| && sent[i] == accepted[at[i]])
    && (forall i :: 0 < i < |at| ==> at[i] == at[i - 1] || at[i] == at[i - 1] + 1)
    && (at != [] ==> at[0] == 0)
  }

  /** The loop has taken `gets` frames; the last one may not have been sent yet. */
  ghost predicate UpTo(at: seq<nat>, gets: nat) {
    gets > 0 && if at == [] then gets == 1 else at[|at| - 1] == gets - 1 || at[|at| - 1] == gets - 2
  }

  lemma {:induction false} SendNext(sent: seq<FrameData>, at: seq<nat>, accepted: seq<FrameData>, longer: seq<FrameData>,
                                    gets: nat)
    requires InOrder(sent, at, accepted) && IsPrefix(accepted, longer) && UpTo(at, gets) && gets <= |longer|
    ensures InOrder(sent + [longer[gets - 1]], at + [gets - 1], longer)
  {
  }

  /** What every turn keeps, for the frame in hand and the frames sent so far. */
  ghost predicate Looping(q: FrameQueue, frame: Frame, gets: nat, sent: seq<FrameData>, at: seq<nat>, finished: bool)
    reads q, q.storage, q.durations, q.lengths
  {
    && q.Valid() && q.IsLent(frame) && |q.taken| == gets
    && InOrder(sent, at, q.accepted) && UpTo(at, gets)
    && (finished ==> q.closed && q.contents == [] && at != [] && at[|at| - 1] == gets - 1)
  }

  /** Sends the frame in hand. */
  method SendTurn(q: FrameQueue, during: seq<seq<Feed>>, frame: Frame, gets: nat, sent: seq<FrameData>, at: seq<nat>,
                  ghost finished: bool)
    returns (sent': seq<FrameData>, at': seq<nat>)
    requires Looping(q, frame, gets, sent, at, finished)
    modifies q`tail, q`load, q`contents, q`accepted, q`closed, q.storage, q.durations, q.lengths
    ensures Looping(q, frame, gets, sent', at', finished)
    ensures at' == at + [gets - 1]
  {
    ghost var before := q.accepted;
    var f := SendCurrent(q, frame, during);
    SendNext(sent, at, before, q.accepted, gets);
    sent', at' := sent + [f], at + [gets - 1];
  }

  /** Asks for the next frame; without one, the frame in hand stays. */
  method NextTurn(q: FrameQueue, feed: seq<Feed>, frame: Frame, gets: nat, sent: seq<FrameData>, at: seq<nat>,
                  finished: bool)
    returns (frame': Frame, moved: bool, finished': bool, blocked: bool)
    requires Looping(q, frame, gets, sent, at, finished) && at != [] && at[|at| - 1] == gets - 1
    modifies q, q.storage, q.durations, q.lengths
    ensures Looping(q, frame', gets + if moved then 1 else 0, sent, at, finished')
    ensures (finished ==> finished') && (!moved <==> finished' || blocked)
    ensures blocked ==> !q.closed && q.contents == []
  {
    frame', moved, finished', blocked := frame, false, finished, false;
    var next := TakeNext(q, feed);
    match next {
      case Got(newFrame) => frame', moved := newFrame, true;
      case Drained => finished' := true;
      case Blocked => blocked := true;
    }
  }

  /** How the loop has gone: one frame sent for every turn; and the next one in hand
      exactly after a turn that read Recording and whose Get succeeded. One that did
      not succeed found the queue drained, or is still waiting. */
  ghost predicate Paced(turns: seq<Turn>, at: seq<nat>, moved: seq<bool>, finished: bool, blocked: bool) {
    && |at| == |moved| <= |turns|
    && (forall j :: 0 < j < |at| ==> at[j] == at[j - 1] + if moved[j - 1] then 1 else 0)
    && (forall j :: 0 <= j < |moved| ==> moved[j] ==> turns[j].recording)
    && (forall j :: 0 <= j < |moved| ==> turns[j].recording && !moved[j] ==> finished || (blocked && j == |moved| - 1))
  }

  lemma {:induction false} PacedOn(turns: seq<Turn>, at: seq<nat>, moved: seq<bool>, finished: bool, gets: nat, more: bool,
                                   finished': bool, blocked: bool)
    requires Paced(turns, at, moved, finished, false) && |at| < |turns|
    requires at != [] ==> gets - 1 == at[|at| - 1] + if moved[|at| - 1] then 1 else 0
    requires gets > 0 && (finished ==> finished') && (more ==> turns[|at|].recording)
    requires turns[|at|].recording && !more ==> finished' || blocked
    ensures Paced(turns, at + [gets - 1], moved + [more], finished', blocked)
  {
  }

  /** The loop, for any behaviour of the source thread and the engine's state. It ends
      when the state is read as Idle, or never, if Get waits for good. `finished` says
      that Get has found the queue closed and drained. */
  method Run(q: FrameQueue, first: seq<Feed>, turns: seq<Turn>)
    returns (sent: seq<FrameData>, at: seq<nat>, moved: seq<bool>, finished: bool, blocked: bool)
    requires q.Valid() && q.taken == []
    modifies q, q.storage, q.durations, q.lengths
    ensures q.Valid() && InOrder(sent, at, q.accepted) && Paced(turns, at, moved, finished, blocked)
    ensures finished ==> q.closed && q.contents == [] && at != [] && at[|at| - 1] == |q.accepted| - 1
    ensures if q.taken == [] then sent == [] && q.contents == []
            else |sent| == |turns| || turns[|sent|].idle || (blocked && !q.closed && q.contents == [])
  {
    sent, at, moved, finished, blocked := [], [], [], false, false;
    var got := TakeNext(q, first);
    if !got.Got? { return; }
    var frame, gets, i := got.frame, 1, 0;
    while i < |turns| && !turns[i].idle && !blocked
      invariant i == |at| <= |turns| && Looping(q, frame, gets, sent, at, finished)
      invariant Paced(turns, at, moved, finished, blocked)
      invariant at != [] ==> gets - 1 == at[|at| - 1] + if moved[|at| - 1] then 1 else 0
      invariant blocked ==> !q.closed && q.contents == []
    {
      ghost var before, was := at, finished;
      sent, at := SendTurn(q, turns[i].during, frame, gets, sent, at, finished);
      var more, now := false, gets;
      if turns[i].recording {
        frame, more, finished, blocked := NextTurn(q, turns[i].after, frame, gets, sent, at, finished);
        if more { gets := gets + 1; }
      }
      PacedOn(turns, before, moved, was, now, more, finished, blocked);
      moved := moved + [more];
      i := i + 1;
    }
  }
}
