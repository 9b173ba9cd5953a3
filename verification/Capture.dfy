/** The capture loop of the engine: cuts the frames that arrive while it captures
    into files, by size, scene gap and state, and stops on its own on a full
    disk, a lost signal or the end of a timed capture. It reads and changes the
    engine's state as the worker of the state machine, with the controlling
    thread's accesses in between (engine/DVEngine.cpp, engine/AviWriter.cpp,
    core/CaptureGuards.h). */
module Capture {
  import opened Options
  import Engine
  import opened Segments

  /** A stop the loop asked for. A lost signal: the time, that of the last frame, and
      whether one arrived in that capture at all. The end of a timed capture: the
      time before the last frame, that frame's duration, and the limit. */
  datatype Stop =
    | DiskFull
    | SignalLost(now: int, last: int, sawFrame: bool)
    | Duration(time: int, duration: int, limit: int)

  function ReasonOf(s: Stop): Engine.Reason {
    match s
    case DiskFull => Engine.DiskFull
    case SignalLost(_, _, _) => Engine.SignalLost
    case Duration(_, _, _) => Engine.Duration
  }

  /** kDiskCheckFrames. */
  const DISK_CHECK_FRAMES := 25

  /** What can fail while a frame is processed: creating a writer, writing to it,
      finishing it. Each throws. */
  datatype Faults = Faults(create: bool, write: bool, finish: bool)

  /** The controlling thread's accesses between those of the loop: before the loop
      condition, the reading at the top, the reading for the disk check, the
      reading that decides about the frame, the reading of the limit and its
      clearing, and the reading when nothing is captured; and around the stops. */
  datatype Gaps = Gaps(top: seq<Engine.Action>, observe: seq<Engine.Action>, disk: seq<Engine.Action>,
                       decide: seq<Engine.Action>, limit: seq<Engine.Action>, clear: seq<Engine.Action>,
                       idle: seq<Engine.Action>, diskStop: Engine.FinishGaps, stop: Engine.FinishGaps)

  /** One turn of the loop, as the other threads and the outside make it. */
  datatype Turn = Turn(now: int, frame: Option<Frame>, closed: bool, diskFull: bool, gaps: Gaps, faults: Faults)

  predicate QuietStop(g: Engine.FinishGaps) { Engine.Quiet(g.write) && Engine.Quiet(g.exchange) && Engine.Quiet(g.takeBack) }

  /** Nobody interferes with the capture during the turn. */
  predicate QuietTurn(t: Turn) {
    && Engine.Quiet(t.gaps.top) && Engine.Quiet(t.gaps.observe) && Engine.Quiet(t.gaps.disk) && Engine.Quiet(t.gaps.decide)
    && Engine.Quiet(t.gaps.limit) && Engine.Quiet(t.gaps.clear) && Engine.Quiet(t.gaps.idle)
    && QuietStop(t.gaps.diskStop) && QuietStop(t.gaps.stop)
  }

  class CaptureLoop {
    const settings: Settings
    var dvTime: int
    var lastValidDVTime: int
    var counter: nat
    var fileFrameCount: int
    var writer: bool                // m_aviWriter != nullptr
    var files: seq<File>            // the files written, in order
    var time: int                   // m_time
    var wasCapturing: bool
    var lastFrame: Option<int>      // SignalWatch::m_lastFrame
    var framesSinceDiskCheck: int
    var engine: Engine.State        // m_state, m_stopReason, m_captureTime

    ghost var stops: seq<Stop>
    ghost var captured: seq<Frame>      // the frames processed while Capturing
    ghost var starts: seq<int>          // the last recording time before each file
    ghost var paused: set<nat>          // the numbers of files before which the capture paused or stopped
    ghost var atFinish: seq<Frame>      // those captured when the state last became Finished
    ghost var sawFrame: bool            // one arrived in the capture the loop observes

    constructor (settings: Settings, engine: Engine.State)
      requires Engine.Reachable(engine) && engine.worker == Engine.Looping(Engine.Capturing)
      ensures Valid() && this.settings == settings && this.engine == engine
      ensures files == [] && captured == [] && stops == [] && !writer && time == 0
    {
      this.settings, this.engine := settings, engine;
      dvTime, lastValidDVTime, counter, fileFrameCount, writer, files := 0, 0, 0, -1, false, [];
      time, wasCapturing, lastFrame, framesSinceDiskCheck := 0, false, None, 0;
      stops, captured, atFinish, sawFrame := [], [], [], false;
      starts, paused := [], {};
    }

    ghost function Out(): Output
      reads this`files, this`writer, this`counter, this`fileFrameCount, this`starts, this`paused
    {
      Output(files, writer, counter, fileFrameCount, starts, paused)
    }

    ghost predicate FilesOk()
      reads this`files, this`writer, this`counter, this`fileFrameCount, this`starts, this`paused, this`captured
    {
      Kept(settings, Out(), captured)
    }

    ghost predicate TimesOk()
      reads this`files, this`writer, this`counter, this`fileFrameCount, this`starts, this`paused
      reads this`dvTime, this`lastValidDVTime
    {
      Ready(Out(), lastValidDVTime) && (dvTime > 0 ==> lastValidDVTime == dvTime)
    }

    function SignalTimeout(): int { Max(settings.signalLossSeconds, 0) * 1000 }

    /** A signal is lost only after frames have come and then stopped for the
        timeout; a timed capture stops on a frame that reaches the limit. */
    ghost predicate StopOk(s: Stop) {
      match s
      case DiskFull => true
      case SignalLost(now, last, saw) => saw && now - last >= SignalTimeout() > 0
      case Duration(before, duration, limit) => limit != 0 && before + duration >= limit
    }

    ghost predicate StopsOk()
      reads this`stops, this`lastFrame, this`sawFrame
    {
      && (forall i :: 0 <= i < |stops| ==> StopOk(stops[i]))
      && (lastFrame.Some? ==> sawFrame)
    }

    /** The loop is the engine's capture worker; once the state is Finished, nothing
        more has been captured. */
    ghost predicate EngineOk()
      reads this`engine, this`captured, this`atFinish
    {
      && Engine.Reachable(engine) && Engine.Works(engine, Engine.Capturing)
      && (engine.mode == Engine.Finished ==> captured == atFinish)
    }

    /** What holds even when something has thrown. */
    ghost predicate Safe()
      reads this
    {
      FilesOk() && StopsOk() && EngineOk()
    }

    ghost predicate Valid()
      reads this
    {
      Safe() && TimesOk() && engine.worker == Engine.Looping(Engine.Capturing)
    }

    // ---- The worker's accesses to the engine ----

    /** Reads whether the state is Capturing. */
    method Look(gap: seq<Engine.Action>) returns (capturing: bool)
      requires EngineOk() && engine.worker == Engine.Looping(Engine.Capturing)
      modifies this`engine
      ensures EngineOk() && (Engine.Over(old(engine.mode)) ==> !capturing && Engine.Over(engine.mode))
      ensures capturing <==> Engine.Run(old(engine), gap).mode == Engine.Capturing
      ensures engine == Engine.Run(old(engine), gap).(worker := if capturing then Engine.Decided(Engine.Capturing)
                                                                else Engine.Looping(Engine.Capturing))
    {
      Engine.RunKeeps(engine, gap);
      engine := Engine.Run(engine, gap);
      Engine.ReachStep(engine, Engine.ReadMode);
      engine := Engine.Step(engine, Engine.ReadMode);
      capturing := engine.worker.Decided?;
    }

    method GoOn()
      requires EngineOk() && engine.worker == Engine.Decided(Engine.Capturing)
      modifies this`engine
      ensures EngineOk() && engine == old(engine).(worker := Engine.Looping(Engine.Capturing))
    {
      Engine.ReachStep(engine, Engine.GoOn);
      engine := Engine.Step(engine, Engine.GoOn);
    }

    method FinishOnItsOwn(ghost stop: Stop, reason: Engine.Reason, gaps: Engine.FinishGaps)
      requires EngineOk() && engine.worker == Engine.Decided(Engine.Capturing) && reason == ReasonOf(stop)
      requires StopsOk() && StopOk(stop)
      modifies this`engine, this`stops, this`atFinish
      ensures EngineOk() && StopsOk() && stops == old(stops) + [stop]
      ensures engine == Engine.FinishOnItsOwn(old(engine), reason, gaps)
    {
      Engine.FinishMeaning(engine, reason, gaps);
      stops := stops + [stop];
      engine := Engine.FinishOnItsOwn(engine, reason, gaps);
      atFinish := captured;
    }

    // ---- Files ----

    /** FinishWriter: the writer is moved out of m_aviWriter and finished; it is
        destroyed at the end, whether Finish throws or not. */
    method FinishWriter(fails: bool) returns (threw: bool)
      requires Out().Open()
      modifies this`writer, this`files
      ensures Out() == Closed(old(Out())) && threw == (old(writer) && fails)
    {
      threw := writer && fails;
      if writer {
        writer := false;
        files := files[..|files| - 1] + [Destroy(Finish(files[|files| - 1]))];
      }
    }

    /** m_aviWriter.reset(): the destructor finishes a file that is not finished. */
    method ResetWriter()
      requires Out().Open()
      modifies this`writer, this`files
      ensures Out() == Closed(old(Out()))
    {
      if writer {
        assert Destroy(files[|files| - 1]) == Destroy(Finish(files[|files| - 1]));
        writer := false;
        files := files[..|files| - 1] + [Destroy(files[|files| - 1])];
      }
    }

    /** A new writer, whose constructor may throw. */
    method CreateWriter(fails: bool, ghost previous: int) returns (threw: bool)
      requires !writer
      modifies this`writer, this`files, this`counter, this`fileFrameCount, this`starts
      ensures threw == fails && Out() == if threw then old(Out()) else Opened(old(Out()), previous)
    {
      threw := fails;
      if !threw {
        files := files + [NEW_FILE];
        writer, fileFrameCount, counter := true, 0, 0;
        starts := starts + [previous];
      }
    }

    /** The frame joins the open file, and every nth frame is written. */
    method AddFrame(frame: Frame, fails: bool) returns (threw: bool)
      requires writer && files != []
      modifies this`files, this`counter, this`fileFrameCount
      ensures threw == (fails && Writes(settings, old(counter)))
      ensures Out() == if threw then old(Out()) else Added(old(Out()), frame, Writes(settings, old(counter)))
    {
      var last := files[|files| - 1];
      assert last.written + [] == last.written;
      threw := false;
      if counter % settings.N() == 0 {
        threw := fails;
        if !threw {
          last := last.(written := last.written + [frame]);
          fileFrameCount := fileFrameCount + 1;
        }
      }
      if !threw {
        files := files[..|files| - 1] + [last.(frames := last.frames + [frame])];
        counter := counter + 1;
      }
    }

    /** The recording time of a frame; a jump means a new scene. */
    method TrackTime(newDVTime: int) returns (deltaDVTime: int)
      requires dvTime > 0 ==> lastValidDVTime == dvTime
      modifies this`dvTime, this`lastValidDVTime
      ensures dvTime == newDVTime && (dvTime > 0 ==> lastValidDVTime == dvTime)
      ensures lastValidDVTime == if newDVTime > 0 then newDVTime else old(lastValidDVTime)
      ensures deltaDVTime == MeasuredGap(newDVTime, old(lastValidDVTime))
    {
      deltaDVTime := 0;
      if newDVTime != dvTime {
        if newDVTime > 0 {
          if lastValidDVTime > 0 {
            deltaDVTime := if newDVTime > lastValidDVTime then newDVTime - lastValidDVTime else lastValidDVTime - newDVTime;
          }
          lastValidDVTime := newDVTime;
        }
        dvTime := newDVTime;
      }
    }

    /** Keeps the open file, or starts a new one after a gap or when it is full. */
    method PrepareFile(deltaDVTime: int, ghost previous: int, faults: Faults) returns (threw: bool)
      requires Out().Open()
      modifies this`writer, this`files, this`counter, this`fileFrameCount, this`starts
      ensures Out() == if threw then Closed(old(Out())) else Prepared(settings, old(Out()), deltaDVTime, previous)
      ensures threw ==> (faults.finish && old(writer)) || faults.create
      ensures if old(writer) && old(fileFrameCount) < settings.maxAVIFrames
                 && (settings.threshold <= 0 || deltaDVTime <= settings.threshold)
              then !threw && Out() == old(Out())
              else !threw ==> |files| == |old(files)| + 1 && files[|files| - 1] == NEW_FILE && counter == fileFrameCount == 0
    {
      threw := false;
      if writer && (fileFrameCount >= settings.maxAVIFrames || (settings.threshold > 0 && deltaDVTime > settings.threshold)) {
        threw := FinishWriter(faults.finish);
      }
      if !threw && !writer {
        threw := CreateWriter(faults.create, previous);
      }
    }

    /** The state was Capturing: the frame goes into a file. */
    method SegmentFrame(frame: Frame, deltaDVTime: int, ghost previous: int, faults: Faults) returns (threw: bool)
      requires Out().Open()
      modifies this`writer, this`files, this`counter, this`fileFrameCount, this`captured, this`starts
      ensures captured == old(captured) + (if threw then [] else [frame])
      ensures if threw then Interrupted(settings, old(Out()), deltaDVTime, previous, Out())
              else Out() == Placed(settings, old(Out()), frame, deltaDVTime, previous)
    {
      threw := PrepareFile(deltaDVTime, previous, faults);
      if !threw {
        threw := AddFrame(frame, faults.write);
        if !threw { captured := captured + [frame]; }
      }
    }

    // ---- Turns ----

    /** The capture clock, and the end of a timed capture; `limit` is the one read. */
    method CountTime(duration: int, gaps: Gaps) returns (limit: int)
      requires EngineOk() && StopsOk() && engine.worker == Engine.Decided(Engine.Capturing) && engine.mode == Engine.Capturing
      modifies this`time, this`engine, this`stops, this`atFinish
      ensures EngineOk() && StopsOk() && engine.worker == Engine.Looping(Engine.Capturing)
      ensures time == old(time) + duration
      ensures stops == old(stops) + if limit != 0 && time >= limit then [Duration(old(time), duration, limit)] else []
      ensures QuietCount(gaps) ==> engine == Counted(old(engine), time) && limit == old(engine.captureTime)
    {
      ghost var before := time;
      time := time + duration;
      limit := ReadLimit(gaps.limit);
      if limit != 0 && time >= limit {
        EndTimed(before, duration, limit, gaps);
      } else {
        GoOn();
      }
    }

    /** The limit is reached. */
    method EndTimed(ghost before: int, ghost duration: int, ghost limit: int, gaps: Gaps)
      requires EngineOk() && StopsOk() && engine.worker == Engine.Decided(Engine.Capturing)
      requires StopOk(Duration(before, duration, limit))
      modifies this`engine, this`stops, this`atFinish
      ensures EngineOk() && StopsOk() && engine.worker == Engine.Looping(Engine.Capturing)
      ensures stops == old(stops) + [Duration(before, duration, limit)]
      ensures QuietCount(gaps) && old(engine.mode) == Engine.Capturing ==> engine == TimedOut(old(engine))
    {
      ghost var quiet := QuietCount(gaps) && engine.mode == Engine.Capturing;
      ClearLimit(gaps.clear);
      if quiet { Engine.FinishUndisturbed(engine, Engine.Duration, gaps.stop); }
      FinishOnItsOwn(Duration(before, duration, limit), Engine.Duration, gaps.stop);
    }

    method ReadLimit(gap: seq<Engine.Action>) returns (captureTime: int)
      requires EngineOk() && engine.worker == Engine.Decided(Engine.Capturing)
      modifies this`engine
      ensures EngineOk() && engine == Engine.Run(old(engine), gap) && captureTime == engine.captureTime
      ensures old(engine.mode) == Engine.Capturing && Engine.Quiet(gap) ==> engine == old(engine)
    {
      Engine.RunKeeps(engine, gap);
      if engine.mode == Engine.Capturing && Engine.Quiet(gap) { Engine.QuietRun(engine, gap); }
      engine := Engine.Run(engine, gap);
      captureTime := engine.captureTime;
    }

    method ClearLimit(gap: seq<Engine.Action>)
      requires EngineOk() && engine.worker == Engine.Decided(Engine.Capturing)
      modifies this`engine
      ensures EngineOk() && engine == Engine.Run(old(engine), gap).(captureTime := 0)
      ensures old(engine.mode) == Engine.Capturing && Engine.Quiet(gap) ==> engine == old(engine).(captureTime := 0)
    {
      Engine.RunKeeps(engine, gap);
      if engine.mode == Engine.Capturing && Engine.Quiet(gap) { Engine.QuietRun(engine, gap); }
      engine := Engine.Run(engine, gap);
      Engine.ReachStep(engine, Engine.ClearLimit);
      engine := Engine.Step(engine, Engine.ClearLimit);
    }

    /** One captured frame: into a file, and onto the capture clock. */
    method CaptureFrame(frame: Frame, deltaDVTime: int, ghost previous: int, gaps: Gaps, faults: Faults) returns (threw: bool)
      requires Out().Open() && StopsOk()
      requires EngineOk() && engine.worker == Engine.Decided(Engine.Capturing) && engine.mode == Engine.Capturing
      modifies this`writer, this`files, this`counter, this`fileFrameCount, this`captured, this`starts
      modifies this`time, this`engine, this`stops, this`atFinish
      ensures StopsOk() && EngineOk() && (!threw ==> engine.worker == Engine.Looping(Engine.Capturing))
      ensures captured == old(captured) + (if threw then [] else [frame])
      ensures time == old(time) + if threw then 0 else frame.duration
      ensures if threw then Interrupted(settings, old(Out()), deltaDVTime, previous, Out())
              else Out() == Placed(settings, old(Out()), frame, deltaDVTime, previous)
      ensures !threw && QuietCount(gaps) ==> engine == Counted(old(engine), time)
      ensures |stops| >= |old(stops)| && paused == old(paused)
    {
      threw := SegmentFrame(frame, deltaDVTime, previous, faults);
      if !threw { var limit := CountTime(frame.duration, gaps); }
    }

    /** The top of a turn: each capture the loop observes starts a new signal watch. */
    method ObserveState(capturing: bool)
      requires StopsOk()
      modifies this`lastFrame, this`framesSinceDiskCheck, this`wasCapturing, this`sawFrame
      ensures StopsOk() && wasCapturing == capturing
      ensures framesSinceDiskCheck == if capturing && !old(wasCapturing) then DISK_CHECK_FRAMES else old(framesSinceDiskCheck)
      ensures capturing && !old(wasCapturing) ==> lastFrame == None && !sawFrame
      ensures !(capturing && !old(wasCapturing)) ==> lastFrame == old(lastFrame) && sawFrame == old(sawFrame)
    {
      if capturing && !wasCapturing {
        lastFrame := None;
        sawFrame := false;
        framesSinceDiskCheck := DISK_CHECK_FRAMES;
      }
      wasCapturing := capturing;
    }

    /** SignalWatch::Lost. */
    predicate Lost(now: int)
      reads this`lastFrame
    {
      SignalTimeout() > 0 && lastFrame.Some? && now - lastFrame.value >= SignalTimeout()
    }

    /** No frame arrived in time. A lost signal ends the file and the capture. */
    method OnTimeout(now: int, capturing: bool, gaps: Engine.FinishGaps, finishFails: bool)
      returns (threw: bool, ended: bool)
      requires Out().Open() && StopsOk() && EngineOk()
      requires engine.worker == (if capturing then Engine.Decided(Engine.Capturing) else Engine.Looping(Engine.Capturing))
      modifies this`writer, this`files, this`engine, this`stops, this`atFinish, this`paused
      ensures StopsOk() && EngineOk() && (ended <==> capturing && Lost(now)) && (threw ==> ended)
      ensures Out() == if ended then Paused(old(Out())) else old(Out())
      ensures stops == old(stops) + if ended && !threw then [SignalLost(now, lastFrame.value, sawFrame)] else []
      ensures threw ==> engine == old(engine)
      ensures ended && !threw ==> engine == Engine.FinishOnItsOwn(old(engine), Engine.SignalLost, gaps)
      ensures !ended ==> engine == old(engine).(worker := Engine.Looping(Engine.Capturing))
    {
      threw, ended := false, capturing && Lost(now);
      if ended {
        threw := EndCapture(SignalLost(now, lastFrame.value, sawFrame), Engine.SignalLost, gaps, finishFails);
      } else if capturing {
        GoOn();
      }
    }

    /** The file ends, and so does the capture. */
    method EndCapture(ghost stop: Stop, reason: Engine.Reason, gaps: Engine.FinishGaps, finishFails: bool)
      returns (threw: bool)
      requires Out().Open() && StopsOk() && EngineOk() && engine.worker == Engine.Decided(Engine.Capturing)
      requires StopOk(stop) && reason == ReasonOf(stop)
      modifies this`writer, this`files, this`engine, this`stops, this`atFinish, this`paused
      ensures StopsOk() && EngineOk() && Out() == Paused(old(Out()))
      ensures if threw then engine == old(engine) && stops == old(stops)
              else stops == old(stops) + [stop] && engine == Engine.FinishOnItsOwn(old(engine), reason, gaps)
    {
      paused := paused + {|files|};
      threw := FinishWriter(finishFails);
      if !threw {
        FinishOnItsOwn(stop, reason, gaps);
      }
    }

    /** The disk is looked at about once a second of video. */
    method CheckDisk(diskFull: bool, gaps: Gaps, finishFails: bool) returns (threw: bool, ended: bool)
      requires Out().Open() && StopsOk() && EngineOk() && engine.worker == Engine.Looping(Engine.Capturing)
      modifies this`writer, this`files, this`engine, this`stops, this`atFinish, this`paused, this`framesSinceDiskCheck
      ensures StopsOk() && EngineOk() && (!threw ==> engine.worker == Engine.Looping(Engine.Capturing))
      ensures Out() == if ended then Paused(old(Out())) else old(Out())
      ensures var seen := Engine.Run(old(engine), gaps.disk);
              var due := seen.mode == Engine.Capturing && old(framesSinceDiskCheck) + 1 >= DISK_CHECK_FRAMES;
              && (ended <==> due && diskFull) && (threw ==> ended)
              && framesSinceDiskCheck == (if due then 0 else if seen.mode == Engine.Capturing then old(framesSinceDiskCheck) + 1
                                          else old(framesSinceDiskCheck))
              && stops == old(stops) + if ended && !threw then [DiskFull] else []
      ensures !threw ==> DiskStep(old(engine), gaps, ended, engine)
      ensures Engine.Over(old(engine.mode)) ==> !ended && Engine.Over(engine.mode)
    {
      threw, ended := false, false;
      var capturing := Look(gaps.disk);
      if capturing {
        framesSinceDiskCheck := framesSinceDiskCheck + 1;
        if framesSinceDiskCheck >= DISK_CHECK_FRAMES {
          framesSinceDiskCheck := 0;
          ended := diskFull;
        }
        if ended {
          threw := EndCapture(DiskFull, Engine.DiskFull, gaps.diskStop, finishFails);
        } else {
          GoOn();
        }
      }
    }

    /** The state was not Capturing: no file stays open; the counters start again
        unless the capture has finished on its own. */
    method OnIdleFrame(gap: seq<Engine.Action>, finishFails: bool) returns (threw: bool)
      requires Out().Open() && EngineOk() && engine.worker == Engine.Looping(Engine.Capturing)
      modifies this`writer, this`files, this`fileFrameCount, this`time, this`engine, this`paused
      ensures EngineOk() && engine.worker == Engine.Looping(Engine.Capturing)
      ensures Out() == Paused(old(Out())).(fileFrameCount := fileFrameCount)
      ensures engine == if threw then old(engine) else Engine.Run(old(engine), gap)
      ensures Engine.Over(old(engine.mode)) ==> Engine.Over(engine.mode)
      ensures if !threw && engine.mode != Engine.Finished then time == 0 && fileFrameCount == -1
              else time == old(time) && fileFrameCount == old(fileFrameCount)
    {
      paused := paused + {|files|};
      threw := FinishWriter(finishFails);
      if !threw {
        Engine.RunKeeps(engine, gap);
        engine := Engine.Run(engine, gap);
        if engine.mode != Engine.Finished {
          time := 0;
          fileFrameCount := -1;
        }
      }
    }

    /** The reading of the state that decides about the frame. */
    method DecideFrame(gaps: Gaps, frame: Frame, deltaDVTime: int, ghost previous: int, faults: Faults)
      returns (threw: bool, took: bool)
      requires Out().Open() && StopsOk() && EngineOk() && engine.worker == Engine.Looping(Engine.Capturing)
      modifies this`writer, this`files, this`counter, this`fileFrameCount, this`captured, this`starts
      modifies this`time, this`engine, this`stops, this`atFinish, this`paused
      ensures StopsOk() && EngineOk() && (!threw ==> engine.worker == Engine.Looping(Engine.Capturing))
      ensures took <==> Engine.Run(old(engine), gaps.decide).mode == Engine.Capturing
      ensures captured == old(captured) + (if took && !threw then [frame] else [])
      ensures Filed(settings, old(Out()), frame, deltaDVTime, previous, took, threw, Out())
      ensures !threw ==> DecideStep(old(engine), old(time), gaps, frame, took, engine, time)
      ensures Engine.Over(old(engine.mode)) ==> !took && Engine.Over(engine.mode)
      ensures |stops| >= |old(stops)| && (took ==> paused == old(paused))
    {
      took := Look(gaps.decide);
      if took {
        threw := CaptureFrame(frame, deltaDVTime, previous, gaps, faults);
      } else {
        threw := OnIdleFrame(gaps.idle, faults.finish);
      }
    }

    /** signal.Frame(now), if the turn began with a capture. */
    method NoteSignal(now: int, capturing: bool)
      requires StopsOk() && EngineOk()
      requires engine.worker == if capturing then Engine.Decided(Engine.Capturing) else Engine.Looping(Engine.Capturing)
      modifies this`lastFrame, this`sawFrame, this`engine
      ensures StopsOk() && EngineOk() && engine == old(engine).(worker := Engine.Looping(Engine.Capturing))
      ensures if capturing then lastFrame == Some(now) && sawFrame
              else lastFrame == old(lastFrame) && sawFrame == old(sawFrame)
    {
      if capturing {
        lastFrame := Some(now);
        sawFrame := true;
        GoOn();
      }
    }

    /** A frame arrived. */
    method OnFrame(t: Turn, frame: Frame) returns (threw: bool, took: bool)
      requires Valid() && t.frame == Some(frame)
      modifies this`writer, this`files, this`counter, this`fileFrameCount, this`captured, this`framesSinceDiskCheck
      modifies this`starts, this`paused
      modifies this`time, this`engine, this`stops, this`atFinish, this`dvTime, this`lastValidDVTime
      ensures if threw then Safe() else Valid()
      ensures captured == old(captured) + if took then [frame] else []
      ensures Engine.Over(old(engine.mode)) ==> !took && Engine.Over(engine.mode)
      ensures !threw ==> FrameStep(old(engine), old(time), t.gaps, frame, took, engine, time)
      ensures took && |stops| == |old(stops)| ==> paused == old(paused)
    {
      ghost var previous := lastValidDVTime;
      var deltaDVTime := TrackTime(frame.dvTime);
      threw, took := FileFrame(t, frame, deltaDVTime, previous);
    }

    /** The frame, once its gap to the one before is known. */
    method FileFrame(t: Turn, frame: Frame, deltaDVTime: int, ghost previous: int) returns (threw: bool, took: bool)
      requires Safe() && engine.worker == Engine.Looping(Engine.Capturing) && Ready(Out(), previous)
      requires deltaDVTime == MeasuredGap(frame.dvTime, previous)
      modifies this`writer, this`files, this`counter, this`fileFrameCount, this`captured, this`framesSinceDiskCheck
      modifies this`starts, this`paused
      modifies this`time, this`engine, this`stops, this`atFinish
      ensures Safe() && captured == old(captured) + if took then [frame] else []
      ensures !threw ==> engine.worker == Engine.Looping(Engine.Capturing) && Ready(Out(), NextValid(frame, previous))
      ensures Engine.Over(old(engine.mode)) ==> !took && Engine.Over(engine.mode)
      ensures !threw ==> FrameStep(old(engine), old(time), t.gaps, frame, took, engine, time)
      ensures took && |stops| == |old(stops)| ==> paused == old(paused)
    {
      ghost var o, c := Out(), captured;
      ghost var ended, decided;
      threw, took, ended, decided := Process(t, frame, deltaDVTime, previous);
      ProcessedKept(settings, o, c, frame, deltaDVTime, previous, ended, decided, took, threw, Out());
      took := took && !threw;
    }

    /** The loop's condition and the reading at the top of a turn. */
    method BeginTurn(t: Turn) returns (idle: bool, capturing: bool)
      requires EngineOk() && StopsOk() && engine.worker == Engine.Looping(Engine.Capturing)
      modifies this`engine, this`lastFrame, this`framesSinceDiskCheck, this`wasCapturing, this`sawFrame
      ensures EngineOk() && StopsOk() && (idle ==> !capturing)
      ensures engine.worker == if capturing then Engine.Decided(Engine.Capturing) else Engine.Looping(Engine.Capturing)
      ensures Engine.Over(old(engine.mode)) ==> !capturing && Engine.Over(engine.mode)
      ensures QuietTurn(t) && Observing(old(engine)) ==>
                !idle && (capturing <==> engine.mode == Engine.Capturing) && Same(engine, old(engine))
    {
      QuietBeginning(engine, t);
      Engine.RunKeeps(engine, t.gaps.top);
      engine := Engine.Run(engine, t.gaps.top);
      idle, capturing := engine.mode == Engine.Idle, false;
      if !idle {
        capturing := Look(t.gaps.observe);
        ObserveState(capturing);
      }
    }

    /** The rest of a turn with a frame. */
    method TakeFrame(t: Turn, capturing: bool) returns (threw: bool, took: bool)
      requires Safe() && TimesOk() && t.frame.Some?
      requires engine.worker == if capturing then Engine.Decided(Engine.Capturing) else Engine.Looping(Engine.Capturing)
      modifies this
      ensures if threw then Safe() else Valid()
      ensures captured == old(captured) + if took then [t.frame.value] else []
      ensures Engine.Over(old(engine.mode)) ==> !took && Engine.Over(engine.mode)
      ensures !threw && QuietTurn(t) && Observing(old(engine)) ==>
                Outcome(old(engine), old(time), t, engine, time, if took then [t.frame.value] else [])
      ensures took && |stops| == |old(stops)| ==> paused == old(paused)
    {
      ghost var e, start := engine, time;
      NoteSignal(t.now, capturing);
      ghost var noted := engine;
      threw, took := OnFrame(t, t.frame.value);
      if !threw { QuietTaken(e, noted, start, t, took, engine, time); }
    }

    /** The rest of a turn without one. */
    method NoFrame(t: Turn, capturing: bool) returns (threw: bool)
      requires Safe() && TimesOk() && t.frame == None
      requires engine.worker == if capturing then Engine.Decided(Engine.Capturing) else Engine.Looping(Engine.Capturing)
      modifies this`writer, this`files, this`engine, this`stops, this`atFinish, this`paused
      ensures Safe() && TimesOk()
      ensures !threw ==> engine.worker == Engine.Looping(Engine.Capturing)
      ensures Engine.Over(old(engine.mode)) && !capturing ==> Engine.Over(engine.mode)
      ensures !threw && QuietTurn(t) && Observing(old(engine)) && (capturing <==> old(engine.mode) == Engine.Capturing) ==>
                Outcome(old(engine), time, t, engine, time, [])
      ensures !threw && |stops| == |old(stops)| ==> paused == old(paused)
    {
      ghost var o, e := Out(), engine;
      var lost;
      threw, lost := OnTimeout(t.now, capturing, t.gaps.stop, t.faults.finish);
      PausingKept(settings, o, captured, lastValidDVTime, lost);
      if !threw { QuietTimeout(e, time, t, capturing, lost, engine); }
    }

    /** A turn's frame is taken, or its absence noted; a closed queue ends the loop. */
    method Respond(t: Turn, capturing: bool) returns (threw: bool, took: bool, ended: bool)
      requires Safe() && TimesOk()
      requires engine.worker == if capturing then Engine.Decided(Engine.Capturing) else Engine.Looping(Engine.Capturing)
      modifies this
      ensures if threw || ended then Safe() else Valid()
      ensures took ==> t.frame.Some?
      ensures captured == old(captured) + if took then [t.frame.value] else []
      ensures Engine.Over(old(engine.mode)) && !capturing ==> !took && Engine.Over(engine.mode)
      ensures !threw && QuietTurn(t) && Observing(old(engine)) && (capturing <==> old(engine.mode) == Engine.Capturing) ==>
                && (ended <==> EndsLoop(t))
                && Outcome(old(engine), old(time), t, engine, time, if took then [t.frame.value] else [])
      ensures !threw && (took || t.frame == None) && |stops| == |old(stops)| ==> paused == old(paused)
    {
      threw, took, ended := false, false, false;
      if t.frame.Some? {
        threw, took := TakeFrame(t, capturing);
      } else if t.closed {
        ended := true;
      } else {
        threw := NoFrame(t, capturing);
      }
    }

    /** One turn of the loop; `ended` when the state is Idle, or the queue is closed
        and drained. */
    method OneTurn(t: Turn) returns (threw: bool, took: bool, ended: bool)
      requires Valid()
      modifies this
      ensures if threw || ended then Safe() else Valid()
      ensures took ==> t.frame.Some?
      ensures captured == old(captured) + if took then [t.frame.value] else []
      ensures Engine.Over(old(engine.mode)) ==> !took && Engine.Over(engine.mode)
      ensures !threw && QuietTurn(t) && Observing(old(engine)) ==>
                && (ended <==> EndsLoop(t))
                && Outcome(old(engine), old(time), t, engine, time, if took then [t.frame.value] else [])
      ensures !threw && (took || t.frame == None) && |stops| == |old(stops)| ==> paused == old(paused)
    {
      threw, took := false, false;
      ghost var e0, start := engine, time;
      var capturing;
      ended, capturing := BeginTurn(t);
      ghost var e := engine;
      if !ended {
        threw, took, ended := Respond(t, capturing);
      }
      TurnOutcome(e0, e, start, t, engine, time, if took then [t.frame.value] else []);
    }

    /** CaptureLoop: turns until the state is Idle, the queue is drained, or something
        throws. Nothing is captured once the state is Finished or Idle; and nobody
        interfering, a capture goes as Uninterrupted says. */
    method Loop(turns: seq<Turn>) returns (threw: bool, ghost taken: seq<Frame>)
      requires Valid()
      modifies this
      ensures Safe() && captured == old(captured) + taken
      ensures Engine.Over(old(engine.mode)) ==> taken == [] && Engine.Over(engine.mode)
      ensures !threw && QuietTurns(turns) && Begun(old(engine), old(time)) ==>
                Uninterrupted(old(engine), old(time), Arrived(turns), taken, engine, time)
    {
      threw, taken := false, [];
      ghost var c := Course(engine, time, captured, turns, QuietTurns(turns) && Begun(engine, time));
      ghost var seen: seq<Frame> := [];
      var i, ended := 0, false;
      CourseBegins(c);
      while i < |turns| && !threw && !ended
        invariant i <= |turns| && if threw || ended then Safe() else Valid()
        invariant captured == c.captured + taken
        invariant Engine.Over(c.start.mode) ==> taken == [] && Engine.Over(engine.mode)
        invariant !threw ==> OnCourse(c, i, ended, seen, taken, engine, time)
        decreases |turns| - i
      {
        threw, ended, seen, taken := NextTurn(turns[i], c, i, seen, taken);
        i := i + 1;
      }
      if !threw { CourseEnds(c, i, ended, seen, taken, engine, time); }
    }

    method NextTurn(t: Turn, ghost c: Course, ghost i: nat, ghost seen: seq<Frame>, ghost taken: seq<Frame>)
      returns (threw: bool, ended: bool, ghost seen': seq<Frame>, ghost taken': seq<Frame>)
      requires Valid() && i < |c.turns| && t == c.turns[i] && OnCourse(c, i, false, seen, taken, engine, time)
      requires captured == c.captured + taken
      modifies this
      ensures if threw || ended then Safe() else Valid()
      ensures captured == c.captured + taken'
      ensures Engine.Over(old(engine.mode)) ==> taken' == taken && Engine.Over(engine.mode)
      ensures !threw ==> OnCourse(c, i + 1, ended, seen', taken', engine, time)
    {
      ghost var e1, time1 := engine, time;
      var took;
      threw, took, ended := OneTurn(t);
      ghost var more := if took then FrameOf(t) else [];
      seen', taken' := seen + FrameOf(t), taken + more;
      Joined(c.captured, taken, more);
      if !threw && c.quiet {
        ArrivedStep(c.turns, i, seen);
        StaysUninterrupted(c.start, c.time, seen, taken, e1, time1, t, more, engine, time);
      }
    }

    /** CapturingThread: the loop, a last FinishWriter when it ends without an
        exception, and the writer's destructor in any case. Whatever the turns,
        the captured frames are split in order into consecutive files, each as it
        should be, and each finished exactly once. */
    method Run(turns: seq<Turn>, finishFails: bool) returns (threw: bool)
      requires Valid()
      modifies this
      ensures Safe() && Flatten(files) == captured
      ensures forall i :: 0 <= i < |files| ==> FileOk(settings, files[i]) && files[i].finishes == 1 && !files[i].open
      ensures |starts| == |files|
      ensures forall i :: 0 < i < |files| ==> i in paused || Justified(settings, files[i - 1], files[i], starts[i])
      ensures forall i :: 0 <= i < |stops| ==> StopOk(stops[i])
      ensures Engine.Reachable(engine) && (engine.mode == Engine.Finished ==> captured == atFinish)
    {
      ghost var taken;
      threw, taken := Loop(turns);
      ghost var o := Out();
      if !threw {
        threw := FinishWriter(finishFails);
      }
      ResetWriter();
      ClosedGood(settings, o, captured);
      ClosedCuts(settings, o);
      AllFinished(settings, Out(), captured);
    }

    /** The disk check, and the decision about the frame. */
    method Process(t: Turn, frame: Frame, deltaDVTime: int, ghost previous: int)
      returns (threw: bool, took: bool, ghost ended: bool, ghost decided: bool)
      requires Out().Open() && StopsOk() && EngineOk() && engine.worker == Engine.Looping(Engine.Capturing)
      modifies this`writer, this`files, this`counter, this`fileFrameCount, this`captured, this`framesSinceDiskCheck
      modifies this`starts, this`paused
      modifies this`time, this`engine, this`stops, this`atFinish
      ensures StopsOk() && EngineOk() && (!threw ==> decided && engine.worker == Engine.Looping(Engine.Capturing))
      ensures captured == old(captured) + if took && !threw then [frame] else []
      ensures var checked := if ended then Paused(old(Out())) else old(Out());
              if decided then Filed(settings, checked, frame, deltaDVTime, previous, took, threw, Out())
              else Out() == checked && !took
      ensures Engine.Over(old(engine.mode)) ==> !took && Engine.Over(engine.mode)
      ensures !threw ==> FrameStep(old(engine), old(time), t.gaps, frame, took, engine, time)
      ensures !threw && took && |stops| == |old(stops)| ==> paused == old(paused)
    {
      ghost var e := engine;
      threw, ended := CheckDisk(t.diskFull, t.gaps, t.faults.finish);
      took, decided := false, !threw;
      if !threw {
        ghost var e1 := engine;
        threw, took := DecideFrame(t.gaps, frame, deltaDVTime, previous, t.faults);
        assert !threw ==> DiskStep(e, t.gaps, ended, e1);
      }
    }
  }

  /** What the capture clock does to an engine nobody interferes with: at the limit
      it finishes. */
  function Counted(e: Engine.State, time: int): Engine.State {
    if e.captureTime != 0 && time >= e.captureTime then TimedOut(e) else e.(worker := Engine.Looping(Engine.Capturing))
  }

  function TimedOut(e: Engine.State): Engine.State {
    e.(mode := Engine.Finished, reason := Engine.Duration, captureTime := 0, worker := Engine.Looping(Engine.Capturing))
  }

  predicate QuietCount(g: Gaps) { Engine.Quiet(g.limit) && Engine.Quiet(g.clear) && QuietStop(g.stop) }

  function DecidedOn(e: Engine.State): Engine.State { e.(worker := Engine.Decided(Engine.Capturing)) }

  /** The engine across the disk check. */
  predicate DiskStep(e: Engine.State, g: Gaps, ended: bool, e': Engine.State) {
    var seen := Engine.Run(e, g.disk);
    && (ended ==> seen.mode == Engine.Capturing)
    && e' == if ended then Engine.FinishOnItsOwn(DecidedOn(seen), Engine.DiskFull, g.diskStop) else seen
  }

  /** The engine and the clock across the decision about a frame. */
  predicate DecideStep(e: Engine.State, time: int, g: Gaps, frame: Frame, took: bool, e': Engine.State, time': int) {
    var seen := Engine.Run(e, g.decide);
    && (took <==> seen.mode == Engine.Capturing)
    && (took ==> time' == time + frame.duration && (QuietCount(g) ==> e' == Counted(DecidedOn(seen), time')))
    && (!took ==> e' == Engine.Run(seen, g.idle) && (e'.mode == Engine.Finished ==> time' == time))
  }

  ghost predicate FrameStep(e: Engine.State, time: int, g: Gaps, frame: Frame, took: bool, e': Engine.State, time': int) {
    exists ended, e1 :: DiskStep(e, g, ended, e1) && DecideStep(e1, time, g, frame, took, e', time')
  }

  lemma {:induction false} QuietBeginning(e: Engine.State, t: Turn)
    ensures QuietTurn(t) && Observing(e) ==> Engine.Run(e, t.gaps.top) == e && Engine.Run(e, t.gaps.observe) == e
  {
    if QuietTurn(t) && Observing(e) {
      Engine.QuietRun(e, t.gaps.top);
      Engine.QuietRun(e, t.gaps.observe);
    }
  }

  lemma {:induction false} QuietFrame(e: Engine.State, time: int, t: Turn, took: bool, e': Engine.State, time': int)
    requires e.worker == Engine.Looping(Engine.Capturing) && t.frame.Some?
    requires FrameStep(e, time, t.gaps, t.frame.value, took, e', time')
    ensures QuietTurn(t) && Observing(e) ==> Outcome(e, time, t, e', time', if took then [t.frame.value] else [])
  {
    if QuietTurn(t) && Observing(e) {
      var ended, e1 :| DiskStep(e, t.gaps, ended, e1) && DecideStep(e1, time, t.gaps, t.frame.value, took, e', time');
      Engine.QuietRun(e, t.gaps.disk);
      if ended { Engine.FinishUndisturbed(DecidedOn(e), Engine.DiskFull, t.gaps.diskStop); }
      Engine.QuietRun(e1, t.gaps.decide);
      if e1.mode == Engine.Finished { Engine.QuietRun(e1, t.gaps.idle); }
    }
  }

  /** The same, from before the turn's frame was noted. */
  lemma {:induction false} QuietTaken(e0: Engine.State, e: Engine.State, time: int, t: Turn, took: bool,
                                      e': Engine.State, time': int)
    requires Same(e, e0) && e.worker == Engine.Looping(Engine.Capturing) && t.frame.Some?
    requires FrameStep(e, time, t.gaps, t.frame.value, took, e', time')
    ensures QuietTurn(t) && Observing(e0) ==> Outcome(e0, time, t, e', time', if took then [t.frame.value] else [])
  {
    QuietFrame(e, time, t, took, e', time');
    OutcomeFrom(e0, e, time, t, e', time', if took then [t.frame.value] else []);
  }

  /** An outcome does not depend on where the worker was. */
  lemma {:induction false} OutcomeFrom(e0: Engine.State, e: Engine.State, time: int, t: Turn, e': Engine.State, time': int,
                                       added: seq<Frame>)
    requires Same(e, e0)
    ensures Observing(e0) == Observing(e)
    ensures Outcome(e, time, t, e', time', added) ==> Outcome(e0, time, t, e', time', added)
  {
  }

  lemma {:induction false} TurnOutcome(e0: Engine.State, e: Engine.State, time: int, t: Turn, e': Engine.State, time': int,
                                       added: seq<Frame>)
    ensures Same(e, e0) && Outcome(e, time, t, e', time', added) ==> Outcome(e0, time, t, e', time', added)
  {
    if Same(e, e0) { OutcomeFrom(e0, e, time, t, e', time', added); }
  }

  lemma {:induction false} QuietTimeout(e: Engine.State, time: int, t: Turn, capturing: bool, lost: bool, e': Engine.State)
    requires e.worker == (if capturing then Engine.Decided(Engine.Capturing) else Engine.Looping(Engine.Capturing))
    requires t.frame == None && (lost ==> capturing)
    requires e' == if lost then Engine.FinishOnItsOwn(e, Engine.SignalLost, t.gaps.stop)
                   else e.(worker := Engine.Looping(Engine.Capturing))
    ensures QuietTurn(t) && Observing(e) && (capturing <==> e.mode == Engine.Capturing) ==> Outcome(e, time, t, e', time, [])
  {
    if lost && QuietTurn(t) && e.mode == Engine.Capturing { Engine.FinishUndisturbed(e, Engine.SignalLost, t.gaps.stop); }
  }

  /** An engine whose capture goes on, or has finished on its own. */
  predicate Observing(e: Engine.State) { e.mode == Engine.Capturing || e.mode == Engine.Finished }

  /** The same but for the place of the worker. */
  predicate Same(e: Engine.State, f: Engine.State) { e.(worker := f.worker) == f }

  /** What a turn does while nobody interferes and nothing throws. A finished
      engine captures nothing more; a capture takes the frame, and ends with it at
      the limit, unless it ends before on a full disk or a lost signal. */
  predicate Outcome(e: Engine.State, time: int, t: Turn, e': Engine.State, time': int, added: seq<Frame>) {
    if e.mode == Engine.Finished then Same(e', e) && time' == time && added == []
    else if t.frame == None then
      time' == time && added == [] && (Same(e', e) || Same(e', e.(mode := Engine.Finished, reason := Engine.SignalLost)))
    else
      || (time' == time && added == [] && Same(e', e.(mode := Engine.Finished, reason := Engine.DiskFull)))
      || (time' == time + t.frame.value.duration && added == [t.frame.value] && Same(e', Counted(e, time')))
  }

  /** The queue is closed and drained. */
  predicate EndsLoop(t: Turn) { t.frame == None && t.closed }

  // ---- An uninterrupted capture ----

  predicate QuietTurns(turns: seq<Turn>) { forall i :: 0 <= i < |turns| ==> QuietTurn(turns[i]) }

  function FrameOf(t: Turn): seq<Frame> { if t.frame.Some? then [t.frame.value] else [] }

  /** The frames that arrive before the queue is drained. */
  function Arrived(turns: seq<Turn>): seq<Frame> {
    if turns == [] || EndsLoop(turns[0]) then [] else FrameOf(turns[0]) + Arrived(turns[1..])
  }

  lemma {:induction false} ArrivedStep(turns: seq<Turn>, i: nat, seen: seq<Frame>)
    requires i < |turns| && seen + Arrived(turns[i..]) == Arrived(turns)
    ensures seen + FrameOf(turns[i]) + (if EndsLoop(turns[i]) then [] else Arrived(turns[i + 1..])) == Arrived(turns)
  {
    assert turns[i..][1..] == turns[i + 1..];
    var rest := if EndsLoop(turns[i]) then [] else Arrived(turns[i + 1..]);
    assert seen + (FrameOf(turns[i]) + rest) == seen + FrameOf(turns[i]) + rest;
  }

  /** A capture that has not reached its limit, if it has one. */
  predicate Begun(e: Engine.State, time: int) {
    e.mode == Engine.Capturing && (e.captureTime == 0 || time < e.captureTime)
  }

  /** What a capture comes to while nobody interferes: it takes the frames that
      arrive, in order and without a gap, either all of them so far, or until it has
      finished with a reason. That is the end of a timed capture exactly if the
      limit is reached, and then on the first frame that reaches it. */
  predicate Uninterrupted(e: Engine.State, start: int, arrived: seq<Frame>, taken: seq<Frame>, e': Engine.State, time: int) {
    && taken <= arrived && time == start + Total(taken)
    && (forall k :: 0 <= k < |taken| ==> Below(e.captureTime, start + Total(taken[..k])))
    && (if e'.mode == Engine.Finished then
          && (e'.reason == Engine.Duration || e'.reason == Engine.SignalLost || e'.reason == Engine.DiskFull)
          && (e'.reason == Engine.Duration <==> !Below(e.captureTime, time))
        else
          Same(e', e) && taken == arrived && Below(e.captureTime, time))
  }

  /** A run of the loop: where it started, and whether nobody interferes. */
  datatype Course = Course(start: Engine.State, time: int, captured: seq<Frame>, turns: seq<Turn>, quiet: bool)

  /** Before turn i, having seen some frames and taken some of them. */
  predicate OnCourse(c: Course, i: nat, ended: bool, seen: seq<Frame>, taken: seq<Frame>, e: Engine.State, time: int)
    requires i <= |c.turns|
  {
    c.quiet ==>
      && QuietTurns(c.turns) && Begun(c.start, c.time) && Uninterrupted(c.start, c.time, seen, taken, e, time)
      && seen + (if ended then [] else Arrived(c.turns[i..])) == Arrived(c.turns)
  }

  lemma {:induction false} Joined(a: seq<Frame>, b: seq<Frame>, c: seq<Frame>)
    ensures a + (b + c) == (a + b) + c && b + [] == b
  {
  }

  lemma {:induction false} CourseBegins(c: Course)
    requires c.quiet ==> QuietTurns(c.turns) && Begun(c.start, c.time)
    ensures OnCourse(c, 0, false, [], [], c.start, c.time)
  {
    assert c.turns[0..] == c.turns;
  }

  lemma {:induction false} CourseEnds(c: Course, i: nat, ended: bool, seen: seq<Frame>, taken: seq<Frame>, e: Engine.State,
                                      time: int)
    requires i <= |c.turns| && (ended || i == |c.turns|) && OnCourse(c, i, ended, seen, taken, e, time)
    ensures c.quiet ==> Uninterrupted(c.start, c.time, Arrived(c.turns), taken, e, time)
  {
    assert seen + [] == seen;
  }

  predicate Below(limit: int, time: int) { limit == 0 || time < limit }

  lemma {:induction false} StaysUninterrupted(e: Engine.State, start: int, seen: seq<Frame>, taken: seq<Frame>,
                                              e1: Engine.State, time1: int, t: Turn, more: seq<Frame>,
                                              e2: Engine.State, time2: int)
    requires Begun(e, start) && Uninterrupted(e, start, seen, taken, e1, time1) && Outcome(e1, time1, t, e2, time2, more)
    ensures Uninterrupted(e, start, seen + FrameOf(t), taken + more, e2, time2)
  {
    if more == [] {
      assert taken + more == taken;
    } else {
      assert (taken + more)[..|taken|] == taken;
      assert forall k :: 0 <= k < |taken| ==> (taken + more)[..k] == taken[..k];
    }
  }
}
