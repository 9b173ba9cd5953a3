/** The files of a capture as values: which frames belong into which file, and
    what is written of them (engine/DVEngine.cpp, engine/AviWriter.cpp). */
module Segments {
  import Arithmetic

  /** A frame: its number, its duration, and its recording time, 0 if it carries
      none (GetDVRecordingTime(...).value_or(0)). */
  datatype Frame = Frame(id: nat, duration: int, dvTime: int)

  /** Every nth frame of a stretch, after `skip` that are not. */
  function EveryNth(frames: seq<Frame>, n: nat, skip: nat := 0): seq<Frame>
    requires skip < n
  {
    if frames == [] then []
    else if skip == 0 then [frames[0]] + EveryNth(frames[1..], n, n - 1)
    else EveryNth(frames[1..], n, skip - 1)
  }

  /** A counter that starts at zero tells which frames those are. */
  lemma {:induction false} EveryNthSnoc(frames: seq<Frame>, x: Frame, n: nat, skip: nat)
    requires skip < n
    ensures EveryNth(frames + [x], n, skip) == EveryNth(frames, n, skip) + if |frames| % n == skip then [x] else []
  {
    if frames == [] {
      Arithmetic.QuotientUnique(0, n, 0, 0);
      assert [x][1..] == [];
    } else {
      var rest := frames[1..];
      assert (frames + [x])[1..] == rest + [x];
      EveryNthSnoc(rest, x, n, if skip == 0 then n - 1 else skip - 1);
      NextRemainder(|rest|, n);
    }
  }

  lemma {:induction false} NextRemainder(m: nat, n: nat)
    requires n > 0
    ensures (m + 1) % n == if m % n == n - 1 then 0 else m % n + 1
  {
    var q, r := m / n, m % n;
    if r == n - 1 {
      assert n * (q + 1) == n * q + n;
      Arithmetic.QuotientUnique(m + 1, n, q + 1, 0);
    } else {
      Arithmetic.QuotientUnique(m + 1, n, q, r + 1);
    }
  }

  /** EveryNth keeps the frames at the multiples of n. */
  lemma {:induction false} EveryNthAt(frames: seq<Frame>, n: nat, skip: nat, k: nat)
    requires skip < n && skip + k * n < |frames|
    ensures k < |EveryNth(frames, n, skip)| && EveryNth(frames, n, skip)[k] == frames[skip + k * n]
    decreases frames
  {
    if skip > 0 {
      EveryNthAt(frames[1..], n, skip - 1, k);
    } else if k > 0 {
      assert (k - 1) * n == k * n - n;
      Arithmetic.ProductBound(1, n, k, n);
      EveryNthAt(frames[1..], n, n - 1, k - 1);
    }
  }

  /** And no others. */
  lemma {:induction false} EveryNthSize(frames: seq<Frame>, n: nat, skip: nat)
    requires skip < n
    ensures |EveryNth(frames, n, skip)| == if |frames| <= skip then 0 else (|frames| - skip - 1) / n + 1
  {
    if frames != [] {
      EveryNthSize(frames[1..], n, if skip == 0 then n - 1 else skip - 1);
      if skip == 0 {
        var m := |frames| - 1;
        if m < n {
          Arithmetic.QuotientUnique(m, n, 0, m);
        } else {
          var q, r := (m - n) / n, (m - n) % n;
          assert n * (q + 1) == n * q + n;
          Arithmetic.QuotientUnique(m, n, q + 1, r);
        }
      }
    }
  }

  /** The last recording time in a stretch, 0 if there is none. */
  function LastValid(frames: seq<Frame>): int {
    if frames == [] then 0
    else
      var x := frames[|frames| - 1];
      if x.dvTime > 0 then x.dvTime else LastValid(frames[..|frames| - 1])
  }

  function NextValid(frame: Frame, previous: int): int { if frame.dvTime > 0 then frame.dvTime else previous }

  function Gap(a: int, b: int): int { if a > b then a - b else b - a }

  /** The gap as the loop measures it: none where a recording time is missing. */
  function MeasuredGap(a: int, b: int): int { if a > 0 && b > 0 then Gap(a, b) else 0 }

  /** Successive recording times differ by at most the threshold, across frames
      that carry none too. */
  predicate SameScene(frames: seq<Frame>, threshold: int) {
    if frames == [] then true
    else
      var rest, x := frames[..|frames| - 1], frames[|frames| - 1];
      SameScene(rest, threshold) && (x.dvTime > 0 && LastValid(rest) > 0 ==> Gap(x.dvTime, LastValid(rest)) <= threshold)
  }

  /** SameScene says what it should of any two neighbouring recording times. */
  lemma {:induction false} SceneGaps(frames: seq<Frame>, threshold: int, i: nat, j: nat)
    requires SameScene(frames, threshold) && i < j < |frames|
    requires frames[i].dvTime > 0 && frames[j].dvTime > 0
    requires forall k :: i < k < j ==> frames[k].dvTime <= 0
    ensures Gap(frames[j].dvTime, frames[i].dvTime) <= threshold
  {
    if j == |frames| - 1 {
      LastValidIs(frames[..j], i);
    } else {
      SceneGaps(frames[..|frames| - 1], threshold, i, j);
    }
  }

  lemma {:induction false} LastValidIs(frames: seq<Frame>, i: nat)
    requires i < |frames| && frames[i].dvTime > 0
    requires forall k :: i < k < |frames| ==> frames[k].dvTime <= 0
    ensures LastValid(frames) == frames[i].dvTime
  {
    if i < |frames| - 1 { LastValidIs(frames[..|frames| - 1], i); }
  }

  /** The durations of some frames, together. */
  function Total(frames: seq<Frame>): int {
    if frames == [] then 0 else Total(frames[..|frames| - 1]) + frames[|frames| - 1].duration
  }

  // ---- Files ----

  /** The engine's settings, fixed for a run. */
  datatype Settings = Settings(threshold: int, maxAVIFrames: int, everyNth: int, signalLossSeconds: int) {
    /** Every how many frames one is written. */
    function N(): nat { Max(everyNth, 1) }
  }

  function Max(a: int, b: int): int { if a > b then a else b }

  /** An AVI file and its writer: the frames of its stretch, those written, the
      writer's m_finished, whether the writer still exists, and how often the
      file was completed and renamed. */
  datatype File = File(frames: seq<Frame>, written: seq<Frame>, finished: bool, open: bool, finishes: nat)

  const NEW_FILE := File([], [], false, true, 0)

  /** CAVIWriter::Finish; it may throw after it has set m_finished. */
  function Finish(f: File): File { if f.finished then f else f.(finished := true, finishes := f.finishes + 1) }

  /** CAVIWriter's destructor. */
  function Destroy(f: File): File { if f.finished then f.(open := false) else Finish(f).(open := false) }

  /** The files so far; whether the last one has a writer; and the counters for it. And
      what tells why a new one was begun: the last recording time before each, and the
      numbers of files before which the capture paused or was stopped. */
  datatype Output = Output(files: seq<File>, writer: bool, counter: nat, fileFrameCount: int,
                           starts: seq<int>, paused: set<nat>) {
    predicate Open() { writer ==> files != [] }

    function Last(): File
      requires files != []
    {
      files[|files| - 1]
    }

    function WithLast(f: File): Output
      requires files != []
    {
      this.(files := files[..|files| - 1] + [f])
    }
  }

  /** No file is open any more. */
  function Closed(o: Output): (r: Output)
    requires o.Open()
    ensures !r.writer
  {
    if o.writer then o.WithLast(Destroy(Finish(o.Last()))).(writer := false) else o
  }

  function Opened(o: Output, previous: int): Output {
    Output(o.files + [NEW_FILE], true, 0, 0, o.starts + [previous], o.paused)
  }

  /** The capture pauses, or is stopped, and closes its file. */
  function Paused(o: Output): (r: Output)
    requires o.Open()
    ensures !r.writer
  {
    Closed(o).(paused := o.paused + {|o.files|})
  }

  /** Nothing asks for a new file: one is open, not full, and there is no gap. */
  predicate KeepsFile(s: Settings, o: Output, deltaDVTime: int) {
    o.writer && o.fileFrameCount < s.maxAVIFrames && !(s.threshold > 0 && deltaDVTime > s.threshold)
  }

  /** Ready for the next frame. */
  function Prepared(s: Settings, o: Output, deltaDVTime: int, previous: int): (r: Output)
    requires o.Open()
    ensures r.writer && r.files != []
  {
    if KeepsFile(s, o, deltaDVTime) then o else Opened(Closed(o), previous)
  }

  /** Every Nth frame of a file is written, the first one too. */
  predicate Writes(s: Settings, counter: nat) { counter % s.N() == 0 }

  /** The open file with one more frame, which is written if its turn has come. */
  function Added(o: Output, frame: Frame, writes: bool): Output
    requires o.files != []
  {
    var last := o.Last();
    o.WithLast(last.(frames := last.frames + [frame], written := last.written + if writes then [frame] else []))
     .(counter := o.counter + 1, fileFrameCount := o.fileFrameCount + if writes then 1 else 0)
  }

  function Placed(s: Settings, o: Output, frame: Frame, deltaDVTime: int, previous: int): Output
    requires o.Open()
  {
    var ready := Prepared(s, o, deltaDVTime, previous);
    Added(ready, frame, Writes(s, ready.counter))
  }

  // ---- What the files satisfy ----

  /** A file as it should be: it holds every Nth frame of its stretch, within the
      size limit and one scene; and it has been finished once, or not yet. */
  predicate FileOk(s: Settings, f: File) {
    && f.written == EveryNth(f.frames, s.N(), 0)
    && |f.written| <= Max(1, s.maxAVIFrames)
    && (s.threshold > 0 ==> SameScene(f.frames, s.threshold))
    && f.finishes == (if f.finished then 1 else 0) && (f.finished <==> !f.open)
  }

  /** The frames of some files, in order. */
  function Flatten(files: seq<File>): seq<Frame> {
    if files == [] then [] else Flatten(files[..|files| - 1]) + files[|files| - 1].frames
  }

  /** The files hold the captured frames in order; only the last can be open, with
      the counters for it. */
  predicate Good(s: Settings, o: Output, captured: seq<Frame>) {
    && (forall i :: 0 <= i < |o.files| ==> FileOk(s, o.files[i]))
    && (forall i :: 0 <= i < |o.files| - 1 ==> !o.files[i].open)
    && Flatten(o.files) == captured
    && (o.writer <==> o.files != [] && o.Last().open)
    && (o.writer ==> o.counter == |o.Last().frames| && o.fileFrameCount == |o.Last().written|)
  }

  /** Why a new file was begun: the one before was full, or the recording time jumped
      by more than the threshold, or writing its first frame threw. `start` is the
      last recording time before it. */
  predicate Justified(s: Settings, first: File, second: File, start: int) {
    || |first.written| >= Max(1, s.maxAVIFrames)
    || second.frames == []
    || (s.threshold > 0 && second.frames[0].dvTime > 0 && start > 0 && Gap(second.frames[0].dvTime, start) > s.threshold
        && (LastValid(first.frames) > 0 ==> start == LastValid(first.frames)))
  }

  /** No file was begun without need: between two neighbouring files the capture
      paused or was stopped, or the second is justified. */
  predicate CutsOk(s: Settings, o: Output) {
    && |o.starts| == |o.files|
    && forall i :: 0 < i < |o.files| ==> i in o.paused || Justified(s, o.files[i - 1], o.files[i], o.starts[i])
  }

  predicate Kept(s: Settings, o: Output, captured: seq<Frame>) { Good(s, o, captured) && CutsOk(s, o) }

  /** The recording time the next one is compared with is that of the open file. */
  predicate LastOk(o: Output, valid: int) {
    o.writer && o.files != [] && LastValid(o.Last().frames) > 0 ==> valid == LastValid(o.Last().frames)
  }

  /** Between turns: the open file has a frame, and without one the capture paused. */
  predicate Ready(o: Output, valid: int) {
    && LastOk(o, valid)
    && (if o.writer then o.files != [] && o.Last().frames != [] else o.files == [] || |o.files| in o.paused)
  }

  lemma {:induction false} FlattenSnoc(files: seq<File>, f: File)
    ensures Flatten(files + [f]) == Flatten(files) + f.frames
  {
    assert (files + [f])[..|files|] == files;
  }

  lemma {:induction false} ClosedGood(s: Settings, o: Output, captured: seq<Frame>)
    requires Good(s, o, captured)
    ensures Good(s, Closed(o), captured)
  {
    if o.writer {
      var init := o.files[..|o.files| - 1];
      FlattenSnoc(init, o.Last());
      assert init + [o.Last()] == o.files;
      FlattenSnoc(init, Destroy(Finish(o.Last())));
    }
  }

  lemma {:induction false} OpenedGood(s: Settings, o: Output, captured: seq<Frame>, previous: int)
    requires Good(s, o, captured) && !o.writer
    ensures Good(s, Opened(o, previous), captured)
  {
    NewFileOk(s);
    FlattenSnoc(o.files, NEW_FILE);
    assert captured + [] == captured;
  }

  lemma {:induction false} NewFileOk(s: Settings)
    ensures FileOk(s, NEW_FILE)
  {
  }

  /** The frame can join the open file. */
  predicate Fits(s: Settings, o: Output, frame: Frame) {
    && o.writer && o.files != [] && (o.fileFrameCount < s.maxAVIFrames || o.fileFrameCount == 0)
    && (s.threshold > 0 ==> SameScene(o.Last().frames + [frame], s.threshold))
  }

  lemma {:induction false} AddedGood(s: Settings, o: Output, captured: seq<Frame>, frame: Frame)
    requires Good(s, o, captured) && Fits(s, o, frame)
    ensures Good(s, Added(o, frame, Writes(s, o.counter)), captured + [frame])
  {
    var last, writes := o.Last(), Writes(s, o.counter);
    var longer := last.(frames := last.frames + [frame], written := last.written + if writes then [frame] else []);
    LongerOk(s, last, frame, writes, longer);
    FlattenLonger(o, longer, frame);
  }

  lemma {:induction false} FlattenLonger(o: Output, longer: File, frame: Frame)
    requires o.files != [] && longer.frames == o.Last().frames + [frame]
    ensures Flatten(o.WithLast(longer).files) == Flatten(o.files) + [frame]
  {
    FlattenSnoc(o.files[..|o.files| - 1], longer);
  }

  lemma {:induction false} LongerOk(s: Settings, f: File, frame: Frame, writes: bool, longer: File)
    requires FileOk(s, f) && (|f.written| < s.maxAVIFrames || |f.written| == 0)
    requires s.threshold > 0 ==> SameScene(f.frames + [frame], s.threshold)
    requires writes == Writes(s, |f.frames|)
    requires longer == f.(frames := f.frames + [frame], written := f.written + if writes then [frame] else [])
    ensures FileOk(s, longer)
  {
    EveryNthSnoc(f.frames, frame, s.N(), 0);
  }

  /** A file that is kept has room, and the frame is of its scene; a new one takes
      any frame. */
  lemma {:induction false} PreparedFits(s: Settings, o: Output, captured: seq<Frame>, frame: Frame, deltaDVTime: int,
                                        previous: int)
    requires Good(s, o, captured) && LastOk(o, previous)
    requires deltaDVTime == MeasuredGap(frame.dvTime, previous)
    ensures var r := Prepared(s, o, deltaDVTime, previous); Good(s, r, captured) && LastOk(r, previous) && Fits(s, r, frame)
  {
    if KeepsFile(s, o, deltaDVTime) {
      SceneSnoc(o.Last().frames, frame, s.threshold, previous);
    } else {
      ClosedGood(s, o, captured);
      OpenedGood(s, Closed(o), captured, previous);
      assert [frame][..0] == [];
    }
  }

  lemma {:induction false} SceneSnoc(frames: seq<Frame>, frame: Frame, threshold: int, previous: int)
    requires LastValid(frames) > 0 ==> previous == LastValid(frames)
    ensures LastValid(frames + [frame]) == NextValid(frame, LastValid(frames))
    ensures SameScene(frames, threshold) && (frame.dvTime > 0 && previous > 0 ==> Gap(frame.dvTime, previous) <= threshold)
        ==> SameScene(frames + [frame], threshold)
  {
    assert (frames + [frame])[..|frames|] == frames;
  }

  /** A captured frame keeps everything as it should be. */
  lemma {:induction false} PlacedGood(s: Settings, o: Output, captured: seq<Frame>, frame: Frame, deltaDVTime: int,
                                      previous: int)
    requires Good(s, o, captured) && LastOk(o, previous)
    requires deltaDVTime == MeasuredGap(frame.dvTime, previous)
    ensures Good(s, Placed(s, o, frame, deltaDVTime, previous), captured + [frame])
    ensures LastOk(Placed(s, o, frame, deltaDVTime, previous), NextValid(frame, previous))
  {
    var ready := Prepared(s, o, deltaDVTime, previous);
    PreparedFits(s, o, captured, frame, deltaDVTime, previous);
    AddedGood(s, ready, captured, frame);
    AddedLast(ready, frame, Writes(s, ready.counter), previous);
  }

  lemma {:induction false} AddedLast(o: Output, frame: Frame, writes: bool, previous: int)
    requires o.writer && o.files != [] && LastOk(o, previous)
    ensures LastOk(Added(o, frame, writes), NextValid(frame, previous))
  {
    SceneSnoc(o.Last().frames, frame, 0, previous);
  }

  /** When nothing is open any more, every file was finished exactly once. */
  lemma {:induction false} AllFinished(s: Settings, o: Output, captured: seq<Frame>)
    requires Good(s, o, captured) && !o.writer
    ensures forall i :: 0 <= i < |o.files| ==> o.files[i].finishes == 1 && !o.files[i].open
  {
    forall i | 0 <= i < |o.files|
      ensures FileOk(s, o.files[i]) && !o.files[i].open
    {
    }
  }

  // ---- No needless cuts ----

  lemma {:induction false} ClosedCuts(s: Settings, o: Output)
    requires o.Open() && CutsOk(s, o)
    ensures CutsOk(s, Closed(o)) && CutsOk(s, Paused(o))
  {
  }

  /** A new file is begun only because the open one is full, or for a gap. */
  lemma {:induction false} PreparedCuts(s: Settings, o: Output, captured: seq<Frame>, deltaDVTime: int, previous: int)
    requires Good(s, o, captured) && CutsOk(s, o) && Ready(o, previous)
    ensures CutsOk(s, Prepared(s, o, deltaDVTime, previous))
  {
    if !KeepsFile(s, o, deltaDVTime) {
      ClosedCuts(s, o);
      OpenedCuts(s, Closed(o), previous);
    }
  }

  lemma {:induction false} OpenedCuts(s: Settings, o: Output, previous: int)
    requires CutsOk(s, o)
    ensures CutsOk(s, Opened(o, previous))
  {
  }

  lemma {:induction false} PlacedCuts(s: Settings, o: Output, captured: seq<Frame>, frame: Frame, deltaDVTime: int,
                                      previous: int)
    requires Good(s, o, captured) && CutsOk(s, o) && Ready(o, previous)
    requires deltaDVTime == MeasuredGap(frame.dvTime, previous)
    ensures CutsOk(s, Placed(s, o, frame, deltaDVTime, previous))
  {
    var ready := Prepared(s, o, deltaDVTime, previous);
    PreparedCuts(s, o, captured, deltaDVTime, previous);
    if KeepsFile(s, o, deltaDVTime) {
      JoinedCuts(s, ready, frame, Writes(s, ready.counter));
    } else {
      if o.writer { NewCut(s, o, captured, frame, deltaDVTime, previous); }
      BegunCuts(s, ready, frame, Writes(s, ready.counter));
    }
  }

  /** Why a file that is closed for the next frame was closed. */
  lemma {:induction false} NewCut(s: Settings, o: Output, captured: seq<Frame>, frame: Frame, deltaDVTime: int, previous: int)
    requires Good(s, o, captured) && Ready(o, previous) && o.writer && !KeepsFile(s, o, deltaDVTime)
    requires deltaDVTime == MeasuredGap(frame.dvTime, previous)
    ensures forall f: File :: f.frames == [frame] ==> Justified(s, Closed(o).Last(), f, previous)
  {
    var last := o.Last();
    assert last.written == EveryNth(last.frames, s.N(), 0) && last.written != [];
  }

  lemma {:induction false} JoinedCuts(s: Settings, o: Output, frame: Frame, writes: bool)
    requires o.files != [] && o.Last().frames != [] && CutsOk(s, o)
    ensures CutsOk(s, Added(o, frame, writes))
  {
    var r, n := Added(o, frame, writes), |o.files|;
    forall i | 0 < i < n
      ensures i in r.paused || Justified(s, r.files[i - 1], r.files[i], r.starts[i])
    {
      assert r.files[i - 1] == o.files[i - 1] && (i < n - 1 ==> r.files[i] == o.files[i]);
      assert i == n - 1 ==> r.files[i].frames[0] == o.files[i].frames[0];
    }
  }

  lemma {:induction false} BegunCuts(s: Settings, o: Output, frame: Frame, writes: bool)
    requires o.files != [] && CutsOk(s, o) && o.Last().frames == []
    requires var n := |o.files| - 1;
             n > 0 ==> n in o.paused
                       || forall f: File :: f.frames == [frame] ==> Justified(s, o.files[n - 1], f, o.starts[n])
    ensures CutsOk(s, Added(o, frame, writes))
  {
    var r, n := Added(o, frame, writes), |o.files|;
    assert r.Last().frames == [frame];
    forall i | 0 < i < n
      ensures i in r.paused || Justified(s, r.files[i - 1], r.files[i], r.starts[i])
    {
      assert r.files[i - 1] == o.files[i - 1] && (i < n - 1 ==> r.files[i] == o.files[i]);
    }
  }

  // ---- What a turn does to the files ----

  /** What an exception leaves: a file may have been closed, and a new one opened. */
  predicate Interrupted(s: Settings, o: Output, deltaDVTime: int, previous: int, r: Output)
    requires o.Open()
  {
    r == Closed(o) || r == Prepared(s, o, deltaDVTime, previous)
  }

  lemma {:induction false} InterruptedKept(s: Settings, o: Output, captured: seq<Frame>, deltaDVTime: int, previous: int,
                                           r: Output)
    requires Kept(s, o, captured) && Ready(o, previous) && Interrupted(s, o, deltaDVTime, previous, r)
    ensures Kept(s, r, captured)
  {
    ClosedGood(s, o, captured);
    ClosedCuts(s, o);
    OpenedGood(s, Closed(o), captured, previous);
    PreparedCuts(s, o, captured, deltaDVTime, previous);
  }

  /** With no file open, the counters do not matter. */
  lemma {:induction false} PausedKept(s: Settings, o: Output, captured: seq<Frame>, fileFrameCount: int, valid: int)
    requires Kept(s, o, captured) && LastOk(o, valid)
    ensures var r := Paused(o).(fileFrameCount := fileFrameCount); Kept(s, r, captured) && Ready(r, valid)
    ensures Kept(s, Paused(o), captured) && Ready(Paused(o), valid)
  {
    ClosedGood(s, o, captured);
    ClosedCuts(s, o);
  }

  lemma {:induction false} PlacedKept(s: Settings, o: Output, captured: seq<Frame>, frame: Frame, deltaDVTime: int,
                                      previous: int)
    requires Kept(s, o, captured) && Ready(o, previous) && deltaDVTime == MeasuredGap(frame.dvTime, previous)
    ensures var r := Placed(s, o, frame, deltaDVTime, previous);
            Kept(s, r, captured + [frame]) && Ready(r, NextValid(frame, previous))
  {
    PlacedGood(s, o, captured, frame, deltaDVTime, previous);
    PlacedCuts(s, o, captured, frame, deltaDVTime, previous);
  }

  /** What becomes of a frame that was captured, was not, or made something throw. */
  predicate Filed(s: Settings, o: Output, frame: Frame, deltaDVTime: int, previous: int, took: bool, threw: bool, r: Output)
    requires o.Open()
  {
    if !took then r == Paused(o).(fileFrameCount := r.fileFrameCount)
    else if threw then Interrupted(s, o, deltaDVTime, previous, r)
    else r == Placed(s, o, frame, deltaDVTime, previous)
  }

  lemma {:induction false} FrameFiled(s: Settings, o: Output, captured: seq<Frame>, frame: Frame, deltaDVTime: int,
                                      previous: int, took: bool, threw: bool, r: Output)
    requires Kept(s, o, captured) && Ready(o, previous) && deltaDVTime == MeasuredGap(frame.dvTime, previous)
    requires Filed(s, o, frame, deltaDVTime, previous, took, threw, r)
    ensures Kept(s, r, captured + if took && !threw then [frame] else [])
    ensures !threw ==> Ready(r, NextValid(frame, previous))
  {
    assert captured + [] == captured;
    if !took {
      PausedKept(s, o, captured, r.fileFrameCount, previous);
    } else if threw {
      InterruptedKept(s, o, captured, deltaDVTime, previous, r);
    } else {
      PlacedKept(s, o, captured, frame, deltaDVTime, previous);
    }
  }

  lemma {:induction false} PausingKept(s: Settings, o: Output, captured: seq<Frame>, valid: int, pauses: bool)
    requires Kept(s, o, captured) && Ready(o, valid)
    ensures var r := if pauses then Paused(o) else o; Kept(s, r, captured) && Ready(r, valid)
  {
    PausedKept(s, o, captured, o.fileFrameCount, valid);
  }

  /** The same across the disk check, which may have stopped the capture before. */
  lemma {:induction false} ProcessedKept(s: Settings, o: Output, captured: seq<Frame>, frame: Frame, deltaDVTime: int,
                                         previous: int, ended: bool, decided: bool, took: bool, threw: bool, r: Output)
    requires Kept(s, o, captured) && Ready(o, previous) && deltaDVTime == MeasuredGap(frame.dvTime, previous)
    requires var checked := if ended then Paused(o) else o;
             if decided then Filed(s, checked, frame, deltaDVTime, previous, took, threw, r) else r == checked && !took && threw
    ensures Kept(s, r, captured + if took && !threw then [frame] else [])
    ensures !threw ==> Ready(r, NextValid(frame, previous))
  {
    PausingKept(s, o, captured, previous, ended);
    assert captured + [] == captured;
    if decided {
      FrameFiled(s, if ended then Paused(o) else o, captured, frame, deltaDVTime, previous, took, threw, r);
    }
  }
}
