/** CDynamicOutputPin: the block state shared by one streaming side, which uses
    the pin, and callers who block and unblock it
    (external/baseclasses/amfilter.cpp). Each step is one critical section. */
module DynamicPin {
  import opened Options

  datatype BlockState = NotBlocked | Pending | Blocked

  /** A block request, told apart by a number. */
  type Request = nat

  datatype HResult = Ok | False | AlreadyBlocked | AlreadyBlockedOnThisThread | StateChanged | MustWait

  /** What ends a wait for one of two events: the unblock event comes first. */
  datatype Wake = Unblocked | Stopped

  /** `stopEvent` is m_hStopEvent, set by Inactive and DeliverBeginFlush, and reset by
      Active and DeliverEndFlush. `waiting` threads are in StartUsingOutputPin's wait;
      `woken` have come out of it for the unblock event, `stopped` for the stop event,
      and have yet to take the lock again. */
  datatype State = State(block: BlockState, caller: nat, notify: Option<Request>, users: nat, unblockEvent: bool,
                         stopEvent: bool, waiting: nat, woken: nat, stopped: nat,
                         accepted: set<Request>, signalled: multiset<Request>)

  function Start(): State { State(NotBlocked, 0, None, 0, true, false, 0, 0, 0, {}, multiset{}) }

  /** BlockOutputPin. */
  function Block(s: State): State {
    s.(block := Blocked, notify := None, unblockEvent := false,
       signalled := if s.notify.Some? then s.signalled + multiset{s.notify.value} else s.signalled)
  }

  /** AsynchronousBlockOutputPin, called on a thread with a nonzero id. */
  function AsyncBlock(s: State, r: Request, thread: nat): (State, HResult) {
    if s.block != NotBlocked then
      (s, if s.caller == thread then AlreadyBlockedOnThisThread else AlreadyBlocked)
    else
      var t := s.(block := Pending, caller := thread, notify := Some(r), accepted := s.accepted + {r});
      (if s.users == 0 then Block(t) else t, Ok)
  }

  /** UnblockOutputPin: also cancels a block that is still pending. */
  function Unblock(s: State): (State, HResult) {
    if s.block == NotBlocked then (s, False)
    else
      (s.(block := NotBlocked, caller := 0, notify := None, unblockEvent := true,
          signalled := if s.notify.Some? then s.signalled + multiset{s.notify.value} else s.signalled), Ok)
  }

  /** One pass of StartUsingOutputPin's loop through the lock. */
  function TryStartUsing(s: State): (State, HResult) {
    if s.block == Blocked then (s.(waiting := s.waiting + 1), MustWait) else (s.(users := s.users + 1), Ok)
  }

  /** WaitForMultipleObjects returns when one of its events is set. */
  function EndWait(s: State): (State, Wake)
    requires s.waiting > 0 && (s.unblockEvent || s.stopEvent)
  {
    if s.unblockEvent then (s.(waiting := s.waiting - 1, woken := s.woken + 1), Unblocked)
    else (s.(waiting := s.waiting - 1, stopped := s.stopped + 1), Stopped)
  }

  /** The thread has the lock again: it gives up, or goes round the loop. */
  function AfterWait(s: State, wake: Wake): (State, HResult)
    requires if wake == Unblocked then s.woken > 0 else s.stopped > 0
  {
    if wake == Stopped then (s.(stopped := s.stopped - 1), StateChanged)
    else TryStartUsing(s.(woken := s.woken - 1))
  }

  function StopUsing(s: State): State
    requires s.users > 0
  {
    var t := s.(users := s.users - 1);
    if t.users == 0 && t.block != NotBlocked then Block(t) else t
  }

  datatype Action =
    | ABlock(r: Request, thread: nat)
    | AUnblock
    | AStartUsing
    | AEndWait
    | AAfterWait(wake: Wake)
    | AStopUsing
    | ASetStop(on: bool)

  /** Requests are new, thread ids are nonzero, only a user stops using, and a wait
      ends only on one of its events. */
  predicate Enabled(s: State, a: Action) {
    match a
    case ABlock(r, thread) => r !in s.accepted && thread > 0
    case AEndWait => s.waiting > 0 && (s.unblockEvent || s.stopEvent)
    case AAfterWait(wake) => if wake == Unblocked then s.woken > 0 else s.stopped > 0
    case AStopUsing => s.users > 0
    case _ => true
  }

  function Step(s: State, a: Action): State
    requires Enabled(s, a)
  {
    match a
    case ABlock(r, thread) => AsyncBlock(s, r, thread).0
    case AUnblock => Unblock(s).0
    case AStartUsing => TryStartUsing(s).0
    case AEndWait => EndWait(s).0
    case AAfterWait(wake) => AfterWait(s, wake).0
    case AStopUsing => StopUsing(s)
    case ASetStop(on) => s.(stopEvent := on)
  }

  ghost predicate CanStep(s: State, a: Action, t: State) { Enabled(s, a) && t == Step(s, a) }

  ghost predicate IsRun(acts: seq<Action>, ss: seq<State>) {
    && |ss| == |acts| + 1 && ss[0] == Start()
    && forall i :: 0 <= i < |acts| ==> CanStep(ss[i], acts[i], ss[i + 1])
  }

  /** AssertValid, and what it leaves out: a pending block waits for a user, the
      unblock event mirrors the state, and requests are signalled once. */
  ghost predicate Inv(s: State) {
    && (s.block == Blocked ==> s.users == 0)
    && (s.block == Pending ==> s.users > 0)
    && (s.notify.Some? <==> s.block == Pending)
    && (s.caller == 0 <==> s.block == NotBlocked)
    && (s.unblockEvent <==> s.block != Blocked)
    && (s.notify.Some? ==> s.notify.value in s.accepted)
    && (forall r :: s.signalled[r] == if r in s.accepted && s.notify != Some(r) then 1 else 0)
  }

  lemma {:induction false} StepKeepsInv(s: State, a: Action, t: State)
    requires Inv(s) && CanStep(s, a, t)
    ensures Inv(t)
  {
  }

  lemma {:induction false} RunKeepsInv(acts: seq<Action>, ss: seq<State>, n: nat)
    requires IsRun(acts, ss) && n <= |acts|
    ensures Inv(ss[n])
  {
    if n > 0 {
      RunKeepsInv(acts, ss, n - 1);
      StepKeepsInv(ss[n - 1], acts[n - 1], ss[n]);
    }
  }

  // ---- What the calls amount to ----

  /** A call of StartUsingOutputPin that gets the pin: at its first look, or after a
      wait that the unblock event has ended. */
  predicate GetsPin(a: Action, s: State) { (a == AStartUsing || a == AAfterWait(Unblocked)) && s.block != Blocked }

  /** The threads that got the pin and have not stopped using it. */
  function Users(acts: seq<Action>, ss: seq<State>, n: nat): int
    requires n <= |acts| <= |ss|
  {
    if n == 0 then 0
    else
      Users(acts, ss, n - 1)
      + (if GetsPin(acts[n - 1], ss[n - 1]) then 1 else 0) - (if acts[n - 1] == AStopUsing then 1 else 0)
  }

  /** The threads that found it blocked and still wait. */
  function Waiters(acts: seq<Action>, ss: seq<State>, n: nat): int
    requires n <= |acts| <= |ss|
  {
    if n == 0 then 0
    else
      var a, s := acts[n - 1], ss[n - 1];
      Waiters(acts, ss, n - 1)
      + (if (a == AStartUsing || a == AAfterWait(Unblocked)) && s.block == Blocked then 1 else 0)
      - (if a == AEndWait then 1 else 0)
  }

  /** The requests made while the pin was neither blocked nor about to be. */
  function Requested(acts: seq<Action>, ss: seq<State>, n: nat): set<Request>
    requires n <= |acts| <= |ss|
  {
    if n == 0 then {}
    else
      var before := Requested(acts, ss, n - 1);
      if acts[n - 1].ABlock? && ss[n - 1].block == NotBlocked then before + {acts[n - 1].r} else before
  }

  lemma {:induction false} CallsAgree(acts: seq<Action>, ss: seq<State>, n: nat)
    requires IsRun(acts, ss) && n <= |acts|
    ensures ss[n].users == Users(acts, ss, n) && ss[n].waiting == Waiters(acts, ss, n)
    ensures ss[n].accepted == Requested(acts, ss, n)
  {
    if n > 0 {
      var m := n - 1;
      CallsAgree(acts, ss, m);
      CallStep(ss[m], acts[m], ss[m + 1]);
    }
  }

  lemma {:induction false} CallStep(s: State, a: Action, t: State)
    requires CanStep(s, a, t)
    ensures t.users == s.users + (if GetsPin(a, s) then 1 else 0) - (if a == AStopUsing then 1 else 0)
    ensures t.waiting == s.waiting - (if a == AEndWait then 1 else 0)
                       + (if (a == AStartUsing || a == AAfterWait(Unblocked)) && s.block == Blocked then 1 else 0)
    ensures t.accepted == if a.ABlock? && s.block == NotBlocked then s.accepted + {a.r} else s.accepted
  {
  }

  /** On every run: while the pin is blocked, no thread has got it and not yet stopped;
      and a request blocks it at once exactly if there is no such thread. */
  lemma {:induction false} BlockedIsUnused(acts: seq<Action>, ss: seq<State>, n: nat)
    requires IsRun(acts, ss) && n <= |acts|
    ensures ss[n].block == Blocked ==> Users(acts, ss, n) == 0
    ensures n < |acts| && acts[n].ABlock? && ss[n].block == NotBlocked ==>
              ss[n + 1].block == if Users(acts, ss, n) == 0 then Blocked else Pending
    ensures n < |acts| && acts[n] == AUnblock ==> ss[n + 1].block == NotBlocked
  {
    RunKeepsInv(acts, ss, n);
    CallsAgree(acts, ss, n);
    if n < |acts| { assert CanStep(ss[n], acts[n], ss[n + 1]); }
  }

  /** On every run: an accepted block request has been signalled exactly once,
      unless its block is still pending; and no refused one was ever signalled. */
  lemma {:induction false} SignalledExactlyOnce(acts: seq<Action>, ss: seq<State>, n: nat, r: Request)
    requires IsRun(acts, ss) && n <= |acts|
    ensures var s := ss[n];
            s.signalled[r] == if r in Requested(acts, ss, n) && !(s.block == Pending && s.notify == Some(r)) then 1 else 0
  {
    RunKeepsInv(acts, ss, n);
    CallsAgree(acts, ss, n);
  }

  /** On every run: a thread must wait exactly while the unblock event is not set, so
      nobody is kept waiting on a pin that is not blocked; and the pin is never
      blocked while somebody uses it. */
  lemma {:induction false} WaitersGetIn(acts: seq<Action>, ss: seq<State>, n: nat)
    requires IsRun(acts, ss) && n <= |acts|
    ensures TryStartUsing(ss[n]).1 == MustWait <==> !ss[n].unblockEvent
    ensures ss[n].waiting > 0 && ss[n].block != Blocked ==> Enabled(ss[n], AEndWait)
    ensures ss[n].users > 0 ==> ss[n].unblockEvent
    ensures ss[n].block == Pending ==> ss[n].users > 0 && ss[n].notify.Some?
  {
    RunKeepsInv(acts, ss, n);
  }

  /** On every run: a wait ends with the state-changed error exactly if the pin is
      still blocked then and the stop event is set; and such a thread does not use
      the pin. */
  lemma {:induction false} StopEndsWait(acts: seq<Action>, ss: seq<State>, n: nat)
    requires IsRun(acts, ss) && n <= |acts| && Enabled(ss[n], AEndWait)
    ensures EndWait(ss[n]).1 == Stopped <==> ss[n].block == Blocked && ss[n].stopEvent
    ensures var t := EndWait(ss[n]).0;
            EndWait(ss[n]).1 == Stopped ==> AfterWait(t, Stopped).1 == StateChanged && AfterWait(t, Stopped).0.users == t.users
  {
    RunKeepsInv(acts, ss, n);
  }

  /** A pending block takes effect exactly when the last user leaves, or is
      cancelled by an unblock; either way its caller hears of it then. */
  lemma {:induction false} PendingResolves(s: State, a: Action, t: State)
    requires Inv(s) && s.block == Pending && CanStep(s, a, t)
    ensures var r := s.notify.value;
            && s.signalled[r] == 0
            && (t.block == Blocked <==> a.AStopUsing? && s.users == 1)
            && (t.block == NotBlocked <==> a.AUnblock?)
            && (t.signalled[r] == 1 <==> t.block != Pending)
  {
  }

  class CDynamicOutputPin {
    var blockState: BlockState
    var blockCallerThreadID: nat
    var notifyEvent: Option<Request>  // m_hNotifyCallerPinBlockedEvent
    var users: nat                    // m_dwNumOutstandingOutputPinUsers
    var unblockEvent: bool            // m_hUnblockOutputPinEvent, manual reset
    var stopEvent: bool

    ghost var waiting: nat            // threads in StartUsingOutputPin's wait
    ghost var woken: nat              // and past it, for either event
    ghost var stopped: nat
    ghost var accepted: set<Request>
    ghost var signalled: multiset<Request>

    ghost function Abs(): State
      reads this
    {
      State(blockState, blockCallerThreadID, notifyEvent, users, unblockEvent, stopEvent,
            waiting, woken, stopped, accepted, signalled)
    }

    constructor ()
      ensures Abs() == Start()
    {
      blockState, blockCallerThreadID, notifyEvent, users, unblockEvent, stopEvent := NotBlocked, 0, None, 0, true, false;
      waiting, woken, stopped := 0, 0, 0;
      accepted, signalled := {}, multiset{};
    }

    /** Sets the caller's event, and closes the handle. */
    method SignalCaller()
      requires notifyEvent.Some?
      modifies this`signalled, this`notifyEvent
      ensures notifyEvent == None && signalled == old(signalled) + multiset{old(notifyEvent).value}
    {
      signalled := signalled + multiset{notifyEvent.value};
      notifyEvent := None;
    }

    method AsynchronousBlockOutputPin(r: Request, thread: nat) returns (hr: HResult)
      requires Inv(Abs()) && r !in accepted && thread > 0
      modifies this
      ensures Inv(Abs()) && (Abs(), hr) == AsyncBlock(old(Abs()), r, thread)
      ensures hr == if old(blockState) == NotBlocked then Ok
                    else if old(blockCallerThreadID) == thread then AlreadyBlockedOnThisThread else AlreadyBlocked
      ensures if hr == Ok then
                && accepted == old(accepted) + {r} && blockCallerThreadID == thread
                && (if users == 0 then blockState == Blocked && signalled == old(signalled) + multiset{r}
                    else blockState == Pending && signalled == old(signalled))
              else blockState == old(blockState) && signalled == old(signalled) && accepted == old(accepted)
    {
      ghost var s := Abs();
      if blockState != NotBlocked {
        return if blockCallerThreadID == thread then AlreadyBlockedOnThisThread else AlreadyBlocked;
      }
      notifyEvent := Some(r);
      accepted := accepted + {r};
      blockState := Pending;
      blockCallerThreadID := thread;
      if users == 0 {
        BlockOutputPin();
      }
      StepKeepsInv(s, ABlock(r, thread), Abs());
      hr := Ok;
    }

    method BlockOutputPin()
      requires users == 0 && notifyEvent.Some?
      modifies this`unblockEvent, this`signalled, this`notifyEvent, this`blockState
      ensures Abs() == Block(old(Abs()))
    {
      unblockEvent := false;
      SignalCaller();
      blockState := Blocked;
    }

    method UnblockOutputPin() returns (hr: HResult)
      requires Inv(Abs())
      modifies this
      ensures Inv(Abs()) && (Abs(), hr) == Unblock(old(Abs()))
      ensures blockState == NotBlocked && unblockEvent && (hr == Ok <==> old(blockState) != NotBlocked)
    {
      ghost var s := Abs();
      if blockState == NotBlocked {
        return False;
      }
      unblockEvent := true;
      if notifyEvent != None {
        SignalCaller();
      }
      blockState := NotBlocked;
      blockCallerThreadID := 0;
      StepKeepsInv(s, AUnblock, Abs());
      hr := Ok;
    }

    /** StartUsingOutputPin, up to its wait for the unblock or the stop event. */
    method StartUsing() returns (hr: HResult)
      requires Inv(Abs())
      modifies this`users, this`waiting
      ensures Inv(Abs()) && (Abs(), hr) == TryStartUsing(old(Abs()))
      ensures hr == if old(blockState) != Blocked then Ok else MustWait
      ensures users == old(users) + (if hr == Ok then 1 else 0) && waiting == old(waiting) + if hr == Ok then 0 else 1
    {
      if blockState == Blocked {
        waiting := waiting + 1;
        return MustWait;
      }
      users := users + 1;
      hr := Ok;
    }

    /** The wait itself, when one of its events is set. */
    method WaitForEvents() returns (wake: Wake)
      requires Inv(Abs()) && waiting > 0 && (unblockEvent || stopEvent)
      modifies this`waiting, this`woken, this`stopped
      ensures Inv(Abs()) && (Abs(), wake) == EndWait(old(Abs()))
      ensures (wake == Unblocked <==> unblockEvent) && waiting == old(waiting) - 1
    {
      waiting := waiting - 1;
      if unblockEvent {
        woken := woken + 1;
        wake := Unblocked;
      } else {
        stopped := stopped + 1;
        wake := Stopped;
      }
    }

    /** StartUsingOutputPin, from there to its return or its next wait. */
    method ResumeStart(wake: Wake) returns (hr: HResult)
      requires Inv(Abs()) && if wake == Unblocked then woken > 0 else stopped > 0
      modifies this`users, this`waiting, this`woken, this`stopped
      ensures Inv(Abs()) && (Abs(), hr) == AfterWait(old(Abs()), wake)
      ensures hr == if wake == Stopped then StateChanged else if old(blockState) != Blocked then Ok else MustWait
      ensures users == old(users) + if hr == Ok then 1 else 0
    {
      if wake == Stopped {
        stopped := stopped - 1;
        return StateChanged;
      }
      woken := woken - 1;
      hr := StartUsing();
    }

    method StopUsingOutputPin()
      requires Inv(Abs()) && users > 0
      modifies this
      ensures Inv(Abs()) && Abs() == StopUsing(old(Abs()))
      ensures users == old(users) - 1
      ensures blockState == if users == 0 && old(blockState) != NotBlocked then Blocked else old(blockState)
    {
      ghost var s := Abs();
      users := users - 1;
      if users == 0 && blockState != NotBlocked {
        BlockOutputPin();
      }
      StepKeepsInv(s, AStopUsing, Abs());
    }
  }
}
