/** The engine's state machine: one controlling thread and one worker, meeting in
    the atomics m_state, m_stopReason and m_captureTime (engine/DVEngine.h,
    DVEngine.cpp). A step is one access to an atomic. */
module Engine {
  datatype Mode = Idle | RecordPaused | Recording | CapturePaused | Capturing | Finished

  datatype Reason = NoReason | Duration | EndOfFiles | SignalLost | DiskFull

  /** Where the controlling thread is: between calls; in StartCapturing after its
      check, after clearing the reason, and after storing the limit; in
      StartRecording after clearing the reason; in Destroy before the join, and
      after it. */
  datatype Controller = Free | StartChecked | StartCleared | LimitStored | RecordCleared | Joining | Joined

  /** The worker: none; in its loop; after reading that it captures or records; or
      in FinishOnItsOwn, after writing the reason, and after a failed exchange.
      `from` is the state its kind of worker finishes from. */
  datatype Worker =
    | NoWorker
    | Looping(from: Mode)
    | Decided(from: Mode)
    | ReasonWritten(from: Mode)
    | ExchangeFailed(from: Mode)

  datatype State = State(mode: Mode, reason: Reason, captureTime: int, controller: Controller, worker: Worker)

  datatype Action =
    | BeginDestroy
    | Join                 // the worker has left its loop
    | EndDestroy
    | Build(capture: bool)
    | StopCapturing
    | CheckStart           // StartCapturing's test of the state
    | RefuseStart          // too little disk space
    | ClearForCapture
    | StoreLimit(limit: int)
    | StoreCapturing       // an unconditional store
    | ClearForRecord
    | ExchangeRecording
    | StopRecording
    | ReadMode
    | GoOn                 // the worker does not finish after all
    | ClearLimit
    | WriteReason(reason: Reason)
    | ExchangeFinished
    | TakeBackReason

  function Start(): State { State(Idle, NoReason, 0, Free, NoWorker) }

  predicate InFinishOnItsOwn(w: Worker) { w.ReasonWritten? || w.ExchangeFailed? }

  predicate Enabled(s: State, a: Action) {
    match a
    case BeginDestroy => s.controller == Free
    case Join => s.controller == Joining && !InFinishOnItsOwn(s.worker)
    case EndDestroy => s.controller == Joined
    case Build(_) => s.controller == Free && s.mode == Idle && s.worker == NoWorker
    case StopCapturing => s.controller == Free
    case CheckStart => s.controller == Free
    case RefuseStart => s.controller == StartChecked
    case ClearForCapture => s.controller == StartChecked
    case StoreLimit(_) => s.controller == StartCleared
    case StoreCapturing => s.controller == LimitStored
    case ClearForRecord => s.controller == Free
    case ExchangeRecording => s.controller == RecordCleared
    case StopRecording => s.controller == Free
    case ReadMode => s.worker.Looping?
    case GoOn => s.worker.Decided?
    case ClearLimit => s.worker.Decided?
    case WriteReason(reason) => s.worker.Decided? && reason != NoReason
    case ExchangeFinished => s.worker.ReasonWritten?
    case TakeBackReason => s.worker.ExchangeFailed?
  }

  /** compare_exchange_strong on m_state. */
  function Exchange(s: State, expected: Mode, desired: Mode): State {
    if s.mode == expected then s.(mode := desired) else s
  }

  function Step(s: State, a: Action): State
    requires Enabled(s, a)
  {
    match a
    case BeginDestroy => s.(mode := Idle, controller := Joining)
    case Join => s.(worker := NoWorker, controller := Joined)
    case EndDestroy => s.(reason := NoReason, captureTime := 0, controller := Free)
    case Build(capture) =>
      if capture then s.(mode := CapturePaused, worker := Looping(Capturing))
      else s.(mode := RecordPaused, worker := Looping(Recording))
    case StopCapturing => Exchange(s, Capturing, CapturePaused)
    case CheckStart => if s.mode != CapturePaused then s else s.(controller := StartChecked)
    case RefuseStart => s.(controller := Free)
    case ClearForCapture => s.(reason := NoReason, controller := StartCleared)
    case StoreLimit(limit) => s.(captureTime := limit, controller := LimitStored)
    case StoreCapturing => s.(mode := Capturing, controller := Free)
    case ClearForRecord => s.(reason := NoReason, controller := RecordCleared)
    case ExchangeRecording => Exchange(s, RecordPaused, Recording).(controller := Free)
    case StopRecording => Exchange(s, Recording, RecordPaused)
    case ReadMode => if s.mode == s.worker.from then s.(worker := Decided(s.worker.from)) else s
    case GoOn => s.(worker := Looping(s.worker.from))
    case ClearLimit => s.(captureTime := 0)
    case WriteReason(reason) => s.(reason := reason, worker := ReasonWritten(s.worker.from))
    case ExchangeFinished =>
      if s.mode == s.worker.from then s.(mode := Finished, worker := Looping(s.worker.from))
      else s.(worker := ExchangeFailed(s.worker.from))
    case TakeBackReason => s.(reason := NoReason, worker := Looping(s.worker.from))
  }

  ghost predicate CanStep(s: State, a: Action, t: State) { Enabled(s, a) && t == Step(s, a) }

  ghost predicate IsRun(acts: seq<Action>, ss: seq<State>) {
    && |ss| == |acts| + 1 && ss[0] == Start()
    && forall i :: 0 <= i < |acts| ==> CanStep(ss[i], acts[i], ss[i + 1])
  }

  /** A capture worker sees the capture states only, a recording worker the
      recording states; and while StartCapturing is between its check and its
      store, the state stays CapturePaused. */
  predicate Inv(s: State) {
    && (s.worker == NoWorker ==> s.mode == Idle)
    && (s.worker != NoWorker ==> s.worker.from == Capturing || s.worker.from == Recording)
    && (s.worker != NoWorker && s.worker.from == Capturing ==> s.mode in {Idle, CapturePaused, Capturing, Finished})
    && (s.worker != NoWorker && s.worker.from == Recording ==> s.mode in {Idle, RecordPaused, Recording, Finished})
    && (InStartCapturing(s.controller) ==> s.mode == CapturePaused)
    && (s.controller == Joining || s.controller == Joined ==> s.mode == Idle)
    && (s.controller == Joined ==> s.worker == NoWorker)
    && (s.worker.Decided? || InFinishOnItsOwn(s.worker) ==> s.mode != Finished)
  }

  predicate InStartCapturing(c: Controller) { c == StartChecked || c == StartCleared || c == LimitStored }

  lemma {:induction false} StepKeepsInv(s: State, a: Action, t: State)
    requires Inv(s) && CanStep(s, a, t)
    ensures Inv(t)
  {
  }

  lemma {:induction false} RunKeepsInv(acts: seq<Action>, ss: seq<State>, n: nat)
    requires IsRun(acts, ss) && n <= |acts|
    ensures Inv(ss[n])
  {
    if n > 0 {
      RunKeepsInv(acts, ss, n - 1);
      StepKeepsInv(ss[n - 1], acts[n - 1], ss[n]);
    }
  }

  /** On every run, Finished is entered only from Capturing or Recording, by the
      worker, and left only to Idle, by Destroy; no store of the controlling
      thread overwrites it. */
  lemma {:induction false} FinishedTransitions(acts: seq<Action>, ss: seq<State>, n: nat)
    requires IsRun(acts, ss) && n < |acts|
    ensures ss[n].mode != Finished && ss[n + 1].mode == Finished ==>
              acts[n] == ExchangeFinished && (ss[n].mode == Capturing || ss[n].mode == Recording)
    ensures ss[n].mode == Finished && ss[n + 1].mode != Finished ==> acts[n] == BeginDestroy && ss[n + 1].mode == Idle
    ensures acts[n] == StoreCapturing ==> ss[n].mode == CapturePaused
  {
    RunKeepsInv(acts, ss, n);
    assert CanStep(ss[n], acts[n], ss[n + 1]);
  }

  // ---- Why it finished ----

  predicate ClearsReason(a: Action) { a == ClearForCapture || a == ClearForRecord }

  /** A Start call has cleared the reason since the worker last wrote one. */
  ghost predicate ClearedSinceWrite(acts: seq<Action>, n: nat)
    requires n <= |acts|
  {
    exists i :: 0 <= i < n && ClearsReason(acts[i]) && forall j :: i < j < n ==> !acts[j].WriteReason?
  }

  lemma {:induction false} ClearedStep(acts: seq<Action>, n: nat)
    requires n < |acts|
    ensures ClearedSinceWrite(acts, n + 1)
        <==> ClearsReason(acts[n]) || (!acts[n].WriteReason? && ClearedSinceWrite(acts, n))
  {
    if !acts[n].WriteReason? && ClearedSinceWrite(acts, n) {
      var i :| 0 <= i < n && ClearsReason(acts[i]) && forall j :: i < j < n ==> !acts[j].WriteReason?;
      assert forall j :: i < j < n + 1 ==> !acts[j].WriteReason?;
    }
  }

  predicate ReasonCounts(s: State) { s.worker.ReasonWritten? || s.mode == Finished }

  lemma {:induction false} ReasonOnRun(acts: seq<Action>, ss: seq<State>, n: nat)
    requires IsRun(acts, ss) && n <= |acts|
    ensures ReasonCounts(ss[n]) ==> (ss[n].reason == NoReason <==> ClearedSinceWrite(acts, n))
  {
    if n > 0 {
      ReasonOnRun(acts, ss, n - 1);
      RunKeepsInv(acts, ss, n - 1);
      ClearedStep(acts, n - 1);
      ReasonStep(ss[n - 1], acts[n - 1], ss[n], ClearedSinceWrite(acts, n - 1));
    }
  }

  lemma {:induction false} ReasonStep(s: State, a: Action, t: State, cleared: bool)
    requires Inv(s) && CanStep(s, a, t)
    requires ReasonCounts(s) ==> (s.reason == NoReason <==> cleared)
    ensures ReasonCounts(t) ==> (t.reason == NoReason <==> ClearsReason(a) || (!a.WriteReason? && cleared))
  {
  }

  /** Whoever sees Finished also sees why, if and only if no Start call has
      cleared the reason since the worker wrote it. */
  lemma {:induction false} FinishedHasReason(acts: seq<Action>, ss: seq<State>, n: nat)
    requires IsRun(acts, ss) && n <= |acts|
    ensures ss[n].mode == Finished ==> (ss[n].reason != NoReason <==> !ClearedSinceWrite(acts, n))
  {
    ReasonOnRun(acts, ss, n);
  }

  /** The worker is past its decision to finish, and nothing has changed since. */
  predicate Undisturbed(s: State) {
    s.worker.Decided? || s.worker.ReasonWritten? ==> s.mode == s.worker.from || s.mode == Idle
  }

  predicate Works(s: State, from: Mode) { s.worker != NoWorker && s.worker.from == from }

  /** A capture that nobody stops finishes with a reason, however often
      StartCapturing is called, if StartRecording is called only while the engine
      is in RecordPaused. */
  lemma {:induction false} UnstoppedCaptureHasReason(acts: seq<Action>, ss: seq<State>, n: nat)
    requires IsRun(acts, ss) && n <= |acts|
    requires forall i :: 0 <= i < n ==> acts[i] != StopCapturing && (acts[i] == ClearForRecord ==> ss[i].mode == RecordPaused)
    ensures Works(ss[n], Capturing) ==> Undisturbed(ss[n])
    ensures Works(ss[n], Capturing) && ReasonCounts(ss[n]) ==> ss[n].reason != NoReason
  {
    if n > 0 {
      UnstoppedCaptureHasReason(acts, ss, n - 1);
      RunKeepsInv(acts, ss, n - 1);
      assert CanStep(ss[n - 1], acts[n - 1], ss[n]);
    }
  }

  /** A recording that nobody stops finishes with a reason, if StartRecording is
      called only while the engine is in RecordPaused. */
  lemma {:induction false} UnstoppedRecordingHasReason(acts: seq<Action>, ss: seq<State>, n: nat)
    requires IsRun(acts, ss) && n <= |acts|
    requires forall i :: 0 <= i < n ==> acts[i] != StopRecording && (acts[i] == ClearForRecord ==> ss[i].mode == RecordPaused)
    ensures Works(ss[n], Recording) ==> Undisturbed(ss[n])
    ensures Works(ss[n], Recording) && ReasonCounts(ss[n]) ==> ss[n].reason != NoReason
  {
    if n > 0 {
      UnstoppedRecordingHasReason(acts, ss, n - 1);
      RunKeepsInv(acts, ss, n - 1);
      assert CanStep(ss[n - 1], acts[n - 1], ss[n]);
    }
  }

  /** It can be cleared: a Stop and a Start between the worker's write and its
      exchange leave a Finished capture with no reason. */
  lemma {:induction false} FinishedWithoutReason() returns (acts: seq<Action>, ss: seq<State>)
    ensures IsRun(acts, ss) && |acts| == 13 && acts[6] == WriteReason(SignalLost) && acts[7] == StopCapturing
    ensures ss[13].mode == Finished && ss[13].reason == NoReason
  {
    acts := [Build(true), CheckStart, ClearForCapture, StoreLimit(0), StoreCapturing, ReadMode, WriteReason(SignalLost),
             StopCapturing, CheckStart, ClearForCapture, StoreLimit(0), StoreCapturing, ExchangeFinished];
    var w := Looping(Capturing);
    var r := ReasonWritten(Capturing);
    ss := [Start(),
           State(CapturePaused, NoReason, 0, Free, w),
           State(CapturePaused, NoReason, 0, StartChecked, w),
           State(CapturePaused, NoReason, 0, StartCleared, w),
           State(CapturePaused, NoReason, 0, LimitStored, w),
           State(Capturing, NoReason, 0, Free, w),
           State(Capturing, NoReason, 0, Free, Decided(Capturing)),
           State(Capturing, SignalLost, 0, Free, r),
           State(CapturePaused, SignalLost, 0, Free, r),
           State(CapturePaused, SignalLost, 0, StartChecked, r),
           State(CapturePaused, NoReason, 0, StartCleared, r),
           State(CapturePaused, NoReason, 0, LimitStored, r),
           State(Capturing, NoReason, 0, Free, r),
           State(Finished, NoReason, 0, Free, w)];
    assert forall i :: 0 <= i < |acts| ==> CanStep(ss[i], acts[i], ss[i + 1]);
  }

  // ---- Between two accesses of the worker ----

  /** A state some run comes to. */
  ghost predicate Reachable(s: State) {
    exists acts, ss :: IsRun(acts, ss) && ss[|acts|] == s
  }

  lemma {:induction false} ReachableInv(s: State)
    requires Reachable(s)
    ensures Inv(s)
  {
    var acts, ss :| IsRun(acts, ss) && ss[|acts|] == s;
    RunKeepsInv(acts, ss, |acts|);
  }

  lemma {:induction false} ReachStep(s: State, a: Action)
    requires Reachable(s) && Enabled(s, a)
    ensures Reachable(Step(s, a))
  {
    var acts, ss :| IsRun(acts, ss) && ss[|acts|] == s;
    var acts', ss' := acts + [a], ss + [Step(s, a)];
    assert forall i :: 0 <= i < |acts| ==> CanStep(ss[i], acts[i], ss[i + 1]);
    assert IsRun(acts', ss') && ss'[|acts'|] == Step(s, a);
  }

  /** What the controlling thread can do while the worker runs. */
  predicate ControllerAction(a: Action) {
    a == BeginDestroy || a == StopCapturing || a == CheckStart || a == RefuseStart || a == ClearForCapture || a.StoreLimit?
    || a == StoreCapturing || a == ClearForRecord || a == ExchangeRecording || a == StopRecording
  }

  /** The controlling thread makes some accesses, those of them it can. */
  function Run(s: State, acts: seq<Action>): (t: State)
    ensures t.worker == s.worker
    decreases |acts|
  {
    if acts == [] then s
    else Run(Control(s, acts[0]), acts[1..])
  }

  predicate Over(mode: Mode) { mode == Finished || mode == Idle }

  /** One access of the controlling thread, if it can make it. */
  function Control(s: State, a: Action): (t: State)
    ensures t.worker == s.worker
  {
    if ControllerAction(a) && Enabled(s, a) then Step(s, a) else s
  }

  /** The controlling thread never enters Finished, and leaves it only in Destroy;
      only StartRecording takes away its reason. */
  lemma {:induction false} RunKeeps(s: State, acts: seq<Action>)
    requires Reachable(s) && s.worker != NoWorker
    ensures var t := Run(s, acts);
            && Reachable(t) && (t.mode == Finished ==> s.mode == Finished) && (Over(s.mode) ==> Over(t.mode))
            && (s.mode == Finished && BeginDestroy !in acts ==>
                  t.mode == Finished && (ClearForRecord !in acts ==> t.reason == s.reason))
    decreases |acts|
  {
    if acts != [] {
      ControlKeeps(s, acts[0]);
      RunKeeps(Control(s, acts[0]), acts[1..]);
    }
  }

  lemma {:induction false} ControlKeeps(s: State, a: Action)
    requires Reachable(s) && s.worker != NoWorker
    ensures var t := Control(s, a);
            && Reachable(t) && (t.mode == Finished ==> s.mode == Finished) && (Over(s.mode) ==> Over(t.mode))
            && (s.mode == Finished && a != BeginDestroy ==> t.mode == Finished && (a != ClearForRecord ==> t.reason == s.reason))
  {
    ReachableInv(s);
    if Control(s, a) != s { ReachStep(s, a); }
  }

  /** Accesses that change nothing during a capture: refused Start calls, and
      Stop calls meant for a recording. */
  predicate Quiet(acts: seq<Action>) {
    acts == [] || ((acts[0] == CheckStart || acts[0] == StopRecording) && Quiet(acts[1..]))
  }

  lemma {:induction false} QuietRun(s: State, acts: seq<Action>)
    requires Quiet(acts) && (s.mode == Capturing || s.mode == Finished)
    ensures Run(s, acts) == s
    decreases |acts|
  {
    if acts != [] { QuietRun(s, acts[1..]); }
  }

  /** What the calls do when nothing falls between their accesses: StartCapturing
      starts a paused capture with its limit and no reason, StopCapturing pauses one
      that runs; in any other state they leave the mode alone. */
  lemma {:induction false} CaptureCallsTakeEffect(s: State, limit: int)
    requires s.controller == Free
    ensures var t := Run(s, [CheckStart, ClearForCapture, StoreLimit(limit), StoreCapturing]);
            t == if s.mode == CapturePaused then s.(mode := Capturing, reason := NoReason, captureTime := limit) else s
    ensures Run(s, [StopCapturing]) == if s.mode == Capturing then s.(mode := CapturePaused) else s
  {
    FourRun(s, CheckStart, ClearForCapture, StoreLimit(limit), StoreCapturing);
    OneRun(s, StopCapturing);
  }

  /** And so for a recording, but that StartRecording clears the reason in any state. */
  lemma {:induction false} RecordCallsTakeEffect(s: State)
    requires s.controller == Free
    ensures Run(s, [ClearForRecord, ExchangeRecording])
         == s.(reason := NoReason, mode := if s.mode == RecordPaused then Recording else s.mode)
    ensures Run(s, [StopRecording]) == if s.mode == Recording then s.(mode := RecordPaused) else s
  {
    TwoRun(s, ClearForRecord, ExchangeRecording);
    OneRun(s, StopRecording);
  }

  lemma {:induction false} OneRun(s: State, a: Action)
    ensures Run(s, [a]) == Control(s, a)
  {
    assert [a][1..] == [];
  }

  lemma {:induction false} TwoRun(s: State, a: Action, b: Action)
    ensures Run(s, [a, b]) == Control(Control(s, a), b)
  {
    assert [a, b][1..] == [b];
    OneRun(Control(s, a), b);
  }

  lemma {:induction false} FourRun(s: State, a: Action, b: Action, c: Action, d: Action)
    ensures Run(s, [a, b, c, d]) == Control(Control(Control(Control(s, a), b), c), d)
  {
    assert [a, b, c, d][1..] == [b, c, d] && [b, c, d][1..] == [c, d];
    TwoRun(Control(Control(s, a), b), c, d);
  }

  /** Destroy and Build, the worker having left: a fresh engine, paused. */
  lemma {:induction false} DestroyAndBuild(s: State, capture: bool)
    requires s.controller == Free && !InFinishOnItsOwn(s.worker)
    ensures var a := Step(s, BeginDestroy);
            var b := Step(a, Join);
            var c := Step(b, EndDestroy);
            && a.mode == Idle && c == Start()
            && Step(c, Build(capture)) == State(if capture then CapturePaused else RecordPaused, NoReason, 0, Free,
                                                Looping(if capture then Capturing else Recording))
  {
  }

  /** What the controlling thread does around the accesses of FinishOnItsOwn. */
  datatype FinishGaps = FinishGaps(write: seq<Action>, exchange: seq<Action>, takeBack: seq<Action>)

  function AtExchange(s: State, reason: Reason, gaps: FinishGaps): (t: State)
    requires s.worker.Decided? && reason != NoReason
    ensures t.worker == ReasonWritten(s.worker.from)
  {
    Run(Step(Run(s, gaps.write), WriteReason(reason)), gaps.exchange)
  }

  /** FinishOnItsOwn: two or three accesses. */
  function FinishOnItsOwn(s: State, reason: Reason, gaps: FinishGaps): (t: State)
    requires s.worker.Decided? && reason != NoReason
    ensures t.worker == Looping(s.worker.from)
  {
    var exchanged := Step(AtExchange(s, reason, gaps), ExchangeFinished);
    if exchanged.worker.ExchangeFailed? then Step(Run(exchanged, gaps.takeBack), TakeBackReason) else exchanged
  }

  /** It finishes exactly if the state is still what it was decided for at the
      exchange, and then with its reason unless a Start call took that away. */
  lemma {:induction false} FinishMeaning(s: State, reason: Reason, gaps: FinishGaps)
    requires Reachable(s) && s.worker.Decided? && reason != NoReason
    ensures var t := FinishOnItsOwn(s, reason, gaps);
            && Reachable(t) && (Over(s.mode) ==> Over(t.mode))
            && (t.mode == Finished <==> AtExchange(s, reason, gaps).mode == s.worker.from)
            && (t.mode == Finished && (forall i :: 0 <= i < |gaps.exchange| ==> !ClearsReason(gaps.exchange[i])) ==> t.reason == reason)
  {
    ReachableInv(s);
    RunKeeps(s, gaps.write);
    var a := Step(Run(s, gaps.write), WriteReason(reason));
    ReachStep(Run(s, gaps.write), WriteReason(reason));
    RunKeeps(a, gaps.exchange);
    if forall i :: 0 <= i < |gaps.exchange| ==> !ClearsReason(gaps.exchange[i]) { KeepsReason(a, gaps.exchange); }
    var b := Run(a, gaps.exchange);
    ReachStep(b, ExchangeFinished);
    ReachableInv(b);
    var c := Step(b, ExchangeFinished);
    if c.worker.ExchangeFailed? {
      RunKeeps(c, gaps.takeBack);
      ReachStep(Run(c, gaps.takeBack), TakeBackReason);
    }
  }

  lemma {:induction false} KeepsReason(s: State, acts: seq<Action>)
    requires forall i :: 0 <= i < |acts| ==> !ClearsReason(acts[i])
    ensures Run(s, acts).reason == s.reason
    decreases |acts|
  {
    if acts != [] {
      KeepsReason(Control(s, acts[0]), acts[1..]);
    }
  }

  /** Nobody interferes: the state is Finished, for that reason. */
  lemma {:induction false} FinishUndisturbed(s: State, reason: Reason, gaps: FinishGaps)
    requires s.worker == Decided(Capturing) && s.mode == Capturing && reason != NoReason
    requires Quiet(gaps.write) && Quiet(gaps.exchange)
    ensures FinishOnItsOwn(s, reason, gaps) == s.(mode := Finished, reason := reason, worker := Looping(Capturing))
  {
    QuietRun(s, gaps.write);
    QuietRun(Step(s, WriteReason(reason)), gaps.exchange);
  }
}
