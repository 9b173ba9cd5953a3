# WinDV 2: a verified model

This project models the parts of WinDV 2 that move DV frames between threads,
cut them into files and send them to tape, and the parts of its vendored
DirectShow base classes with the hardest correctness arguments. It proves what
those parts are for. `dafny verify dfyconfig.toml` checks everything.

What the code changes step by step is written as classes, arrays and loops. Each
such method is proved equal to a function on values, and says besides what it
does to its fields. The functions drive state machines, one step for each
critical section or unlocked access, and the theorems are about every run of
them: they speak of the calls made and what came back, counted over the run.

| files | models |
|---|---|
| `MachineWords`, `MulDiv` | `llMulDiv` and `Int64x32Div32`, in 32-bit limbs |
| `AdviseList`, `Schedule` | `CAMSchedule`: the advise list as a sequence, and as an intrusive linked list with a node cache |
| `ReferenceClock` | `CBaseReferenceClock` and its advise thread |
| `OutputQueue`, `OutputQueueClass` | `COutputQueue` in queued mode: the steps, and the fields and loops that perform them |
| `OutputQueueCalls`, `OutputQueueWakeUp`, `OutputQueueOrder`, `OutputQueueFlush` | what its calls amount to, its wake-ups, its order and reference counts, its flush handshake |
| `Allocator`, `MemAllocator` | `CBaseAllocator` / `CMemAllocator` |
| `DynamicPin` | the blocking protocol of `CDynamicOutputPin` |
| `PullPin` | `CPullPin::Process` and its alignment arithmetic |
| `FrameQueue`, `FrameQueueBlocking`, `RecordLoop` | the frame ring, its two condition variables, and the loop that keeps sending a frame straight from the ring |
| `Engine`, `Segments`, `Capture` | the engine's state machine, the files of a capture as values, and the capture loop, which acts on both |
| `Decimal`, `CaptureNaming`, `CommandLine` | capture file names and durations |
| `Arithmetic`, `Options` | arithmetic facts; values that may be absent |

## What turned out not to hold

Each of these has a lemma with a concrete run or input, and one with the exact
condition under which the code does what it should.

- A next advise 2^32 − 1 milliseconds away or more makes the clock's thread
  sleep forever, because the clamped wait is the value of `INFINITE`
  (`FarAdviseIsMissed`; `WakeUpServesEverything`).
- A `Reset` of the output queue that is in flight when a flush begins, or is
  called during one, lets `EndFlush` return before the worker has flushed, because
  both wait for the same event (`ResetDefeatsFlush`; `FlushBarrier`, `RacedMeans`,
  `NoResetNoRace`).
- The count in the allocator's deadlock comment breaks for good when an
  `AM_GBF_NOWAIT` call comes back with nothing: it raises `m_lWaiting` and never
  waits (`CountBroken`; `ExactCounts`). No wake-up is lost either way.
- With exact batching `IsIdle` can be true while samples are queued
  (`ExactBatchingIsIdleWithSamples`; `IdleMeansEmpty`).
- "Whoever sees Finished also sees why" fails when a Stop and a Start fall
  between the worker's two writes (`FinishedWithoutReason`;
  `FinishedHasReason`, `UnstoppedCaptureHasReason`).
- `llMulDiv` returns quotients between 2^63 and 2^64 modulo 2^64
  (`QuotientWraps`; `QuotientMeaning`).
- The next capture name is taken exactly when both number 999999999 and the
  ten-digit name after it exist (`TwoFilesExhaust`; `TakenOnlyWhenExhausted`),
  and asking for ten or more digits always gives number zero (`OneFileIsTaken`;
  `TooManyDigits`).
- A duration with nine digits of hours need not fit 64 bits
  (`LongHoursOverflow`; `FitsExactly`, `ShortHoursFit`).

## Model

| member | source | states |
|---|---|---|
| `MulDiv.LlMulDiv` | external/baseclasses/arithutil.cpp:77-241 | for every signed 64-bit a, b, c, d the limb arithmetic returns the quotient of the magnitudes of the mathematical a·b+d and c, under the sign of (a·b+d)/c, saturated at the signed extreme when c is 0 or the quotient needs more than 64 bits |
| `MulDiv.Int64x32Div32` | external/baseclasses/arithutil.cpp:243-360 | for every input of its narrower domain it returns what llMulDiv returns, although it uses a 96-bit accumulator and two chained 32-bit divisions |
| `MulDiv.QuotientMeaning` | external/baseclasses/arithutil.cpp:162-181 | for a nonzero divisor the result is the quotient truncated toward zero if and only if that quotient fits a signed 64-bit number; below 2^64 in magnitude it is right modulo 2^64; beyond, it is the extreme on the quotient's side |
| `MulDiv.ZeroDivisor` | external/baseclasses/arithutil.cpp:168-172 | a zero divisor gives the extreme on the side of a·b+d, or of the product's sign when that sum is zero |
| `MulDiv.QuotientWraps` | external/baseclasses/arithutil.cpp:179-180 | a concrete quotient of 2^63, which comes back as the most negative number |
| `MulDiv.ScaleBack` | external/baseclasses/arithutil.cpp:76-241 | a·b/b gives a back for every a and every nonzero b, the most negative ones included |
| `MulDiv.LongMultiply` | external/baseclasses/arithutil.cpp:88-108 | the four limb products with their carries are the 128-bit product of the magnitudes; the middle column cannot overflow |
| `MulDiv.AddSigned` | external/baseclasses/arithutil.cpp:110-160 | adding d under a sign to a sign-and-magnitude number, with hand-written carries and a negation on sign change, gives the exact magnitude and sign of the sum |
| `MulDiv.Negate128` | external/baseclasses/arithutil.cpp:151-159 | complement, increment and carry negate a two-word number modulo 2^128 |
| `MulDiv.MultiplyAdd` | external/baseclasses/arithutil.cpp:79-160 | the limbs hold the magnitude of a·b+d exactly, and bSign its sign |
| `MulDiv.LongDivide` | external/baseclasses/arithutil.cpp:220-240 | 64 rounds of shift and conditional subtract, with bits falling off the top of the words, give the quotient of a 128-bit number |
| `MulDiv.DivideByDword` | external/baseclasses/arithutil.cpp:183-217 | two chained 64-by-32 divisions give the quotient of a 96-bit number |
| `MulDiv.Divide` | external/baseclasses/arithutil.cpp:162-240 | the overflow test and the three division paths agree with one saturated quotient |
| `MulDiv.OverflowTest` | external/baseclasses/arithutil.cpp:168-172 | comparing the divisor with the high word detects exactly a zero divisor or a quotient of more than 64 bits |
| `MulDiv.EnlargedUnsignedDivide` | external/baseclasses/arithutil.cpp:22-37 | quotient and remainder of a 64-bit number by a 32-bit one, where the quotient fits 32 bits |
| `MulDiv.MultiplyAdd96` | external/baseclasses/arithutil.cpp:245-321 | the 96-bit accumulator holds the magnitude of a·b+d exactly for 32-bit b and d |
| `MulDiv.DivideByDword96` | external/baseclasses/arithutil.cpp:335-357 | the chained divisions skip the high one when it would give zero, and still give the quotient of the 96-bit number |
| `AdviseList.AdviseFirings` | external/baseclasses/schedule.cpp:143-186 | in one Advise call, the firings of each cookie are exactly, and in order, those its packet would have alone |
| `AdviseList.PacketFires` | external/baseclasses/schedule.cpp:143-186 | the firings logged for the packet at any list position are that packet's own |
| `AdviseList.FiringCount` | external/baseclasses/schedule.cpp:158-179 | up to time t a one-shot due fires once, and a periodic packet at time s ≤ t fires (t−s) div p + 1 times |
| `AdviseList.FiringTime` | external/baseclasses/schedule.cpp:165-170 | the k-th firing is for the due time s + k·p, which is not after t |
| `AdviseList.SurvivorTime` | external/baseclasses/schedule.cpp:165-177 | a one-shot that fired is gone; a periodic packet ends at the least s + k·p later than t |
| `AdviseList.AdviseSurvivors` | external/baseclasses/schedule.cpp:143-186 | the list after Advise is a permutation of what the packets leave behind one by one |
| `AdviseList.AdviseOrder` | external/baseclasses/schedule.cpp:143-186 | afterwards nothing is due and the list is sorted; firings come in nondecreasing due time, none for a time after t |
| `AdviseList.FireHeadWork` | external/baseclasses/schedule.cpp:158-179 | every iteration lowers the number of firings still due by one, so Advise terminates |
| `AdviseList.AdviseInStages` | external/baseclasses/schedule.cpp:143-186 | an extra, earlier Advise call changes neither the firings nor the final list |
| `AdviseList.AdviseOk` | external/baseclasses/schedule.cpp:143-186 | Advise keeps the list sorted with distinct cookies, and the returned time is later than t or MAX_TIME |
| `AdviseList.StaysBelow` | external/baseclasses/schedule.cpp:232-250 | when no surviving packet reaches MAX_TIME, no packet re-inserted on the way does, which is what ShuntHead asserts |
| `AdviseList.AddOk` | external/baseclasses/schedule.cpp:190-215 | adding keeps the list sorted with distinct cookies; the packet is the next one due exactly when it is due no later than the head |
| `AdviseList.AddMeaning` | external/baseclasses/schedule.cpp:190-215 | the packet is on the list, together with all the others in their order: behind every packet due earlier and before every other |
| `AdviseList.SurvivorRemains` | external/baseclasses/schedule.cpp:165-177 | a packet that Advise does not use up is still on the list, moved on to its next time |
| `AdviseList.DueIsLogged` | external/baseclasses/schedule.cpp:158-164 | a packet that is due is signalled for its due time |
| `AdviseList.AdviseKnows` | external/baseclasses/schedule.cpp:143-186 | Advise signals no cookie that is not on the list, and leaves none |
| `AdviseList.RemoveMeaning` | external/baseclasses/schedule.cpp:114-141 | Unadvise removes exactly its cookie's packet and keeps order and distinctness |
| `AdviseList.RemoveOk` | external/baseclasses/schedule.cpp:114-141 | removal keeps every list invariant, and the next due time does not become earlier |
| `Schedule.CAMSchedule.constructor` | external/baseclasses/schedule.cpp:20-28 | the empty list is head linked to z, with no cache |
| `Schedule.CAMSchedule.Link` | external/baseclasses/schedule.h:56-60 | inserting a free node keeps the links acyclic, from head to z, and disjoint from the cache |
| `Schedule.CAMSchedule.Unlink` | external/baseclasses/schedule.h:65-71 | unlinking takes out exactly one node and keeps the structure |
| `Schedule.CAMSchedule.Allocate` | external/baseclasses/schedule.cpp:91-100 | a node comes from the cache if there is one, else it is new; it is on neither list |
| `Schedule.CAMSchedule.Delete` | external/baseclasses/schedule.cpp:217-228 | the node goes to the front of the cache unless five are there |
| `Schedule.CAMSchedule.FindSlot` | external/baseclasses/schedule.cpp:195-204 | the search stops at the place the abstract insertion uses, before z |
| `Schedule.CAMSchedule.AddAdvisePacket` | external/baseclasses/schedule.cpp:77-112 | the packet is added to what the list holds, and nothing is lost; the count goes up by one; the linked list refines the insertion into the sorted sequence; the cookie is new; the event is set exactly when the packet comes first |
| `Schedule.CAMSchedule.AddNode` | external/baseclasses/schedule.cpp:190-215 | the private insertion: the list holds one more packet, with a new cookie, in its place |
| `Schedule.CAMSchedule.InsertInOrder` | external/baseclasses/schedule.cpp:195-214 | the node is linked in unconditionally, before the packets due no earlier; the event is set if that is the front |
| `Schedule.CAMSchedule.Unadvise` | external/baseclasses/schedule.cpp:114-141 | refines Remove, keeps the structure, and reports whether the cookie was there |
| `Schedule.CAMSchedule.ShuntHead` | external/baseclasses/schedule.cpp:232-262 | refines moving the head behind everything due no later, in place |
| `Schedule.CAMSchedule.FireFirst` | external/baseclasses/schedule.cpp:165-177 | one due packet fires, and the list becomes FireHead of what it was |
| `Schedule.CAMSchedule.Advise` | external/baseclasses/schedule.cpp:143-186 | the loop over the linked list terminates, refines Advise on sequences, logs its firings and returns the next due time |
| `ReferenceClock.StepKeepsInv` | external/baseclasses/refclock.cpp:324-365 | the thread wakes, reads the time, calls Advise and goes back to sleep in separate steps, with client calls and time between any two: from Advise to the next wake-up an event is pending or the next advise is no later than the list's head, and a finite wait is at least 1 ms and ends no later than that |
| `ReferenceClock.RunKeepsInv` | external/baseclasses/refclock.cpp:324-365 | so every state of every run satisfies it |
| `ReferenceClock.NoAdviseIsLate` | external/baseclasses/refclock.cpp:324-365 | on every run, while the thread sleeps with no event pending, within its wait or for at most UINT_MAX ms, no packet is overdue by more than the adjustments since it read the time and the time it took to go to sleep |
| `ReferenceClock.EventsAreKept` | external/baseclasses/refclock.cpp:304-314 | a packet that comes first, or an adjustment of more than half a millisecond while packets wait, sets the event, and it stays set until the thread wakes, which then takes the time as it is |
| `ReferenceClock.NoAdviseIsForgotten` | external/baseclasses/refclock.cpp:324-365 | on every run an advise that was added and not cancelled waits on the list as it was asked for, or was for one time and has been signalled for that time |
| `ReferenceClock.CancelledIsSilent` | external/baseclasses/refclock.cpp:226-229 | on every run a cancelled cookie is not signalled any more, whatever is added later |
| `ReferenceClock.WakeUpServesEverything` | external/baseclasses/refclock.cpp:346-362 | after Advise nothing is due within a millisecond of the time read, so the wait is at least 1 ms, ends no later than the next advise and less than 1 ms before it; it is finite if and only if that is less than UINT_MAX ms away |
| `ReferenceClock.FarAdviseIsMissed` | external/baseclasses/refclock.cpp:360-362 | the limit is real: a clamped wait of UINT_MAX ms means forever, and a run is given that sleeps past the packet's time |
| `ReferenceClock.ElapsedIsExact` | external/baseclasses/refclock.cpp:244-248 | across the wrap of the millisecond counter the elapsed time is right if and only if it is below 2^31 ms |
| `ReferenceClock.CBaseReferenceClock.GetPrivateTime` | external/baseclasses/refclock.cpp:232-251 | two readings d < 2^31 ms apart differ by 10000·d, across the wrap of the millisecond counter too |
| `ReferenceClock.CBaseReferenceClock.GetTime` | external/baseclasses/refclock.cpp:142-171 | the reported time never goes back |
| `ReferenceClock.CBaseReferenceClock.SetTimeDelta` | external/baseclasses/refclock.cpp:304-314 | the clock moves by the delta; the thread is woken for more than half a millisecond forward if packets wait |
| `ReferenceClock.CBaseReferenceClock.AdviseTime` | external/baseclasses/refclock.cpp:175-200 | one-shot packets are added, or refused at times ≤ 0 and MAX_TIME, the 64-bit sum wrapping |
| `ReferenceClock.CBaseReferenceClock.AdvisePeriodic` | external/baseclasses/refclock.cpp:205-223 | periodic packets are added, or refused without a positive start and period |
| `ReferenceClock.CBaseReferenceClock.Serve` | external/baseclasses/refclock.cpp:355-362 | one Advise call, and the wait computed from its result |
| `ReferenceClock.CBaseReferenceClock.WakeUp` | external/baseclasses/refclock.cpp:338-363 | a turn of the thread on the linked list fires what Advise fires on the sequence and computes the wait the model uses |
| `OutputQueueWakeUp.StepKeepsInv` | external/baseclasses/outputq.cpp:254-303 | every critical section keeps: m_lWaiting plus the semaphore count is 1 exactly while the worker is parked; a parked, unsignalled worker has nothing to do; the batch is never full outside the lock |
| `OutputQueueWakeUp.StepKeepsPaired` | external/baseclasses/outputq.cpp:272-283 | a NEW_SEGMENT marker is always followed by its parameters, as the worker relies on |
| `OutputQueueWakeUp.RunKeepsInv` | external/baseclasses/outputq.cpp:203-371 | both hold in every state of every run |
| `OutputQueueWakeUp.NothingIsStranded` | external/baseclasses/outputq.cpp:254-303 | on every run no queued item is stranded: a parked worker without a signal has an empty list and batch (less than a whole batch of plain samples in exact mode) and no termination to act on |
| `OutputQueueWakeUp.IdleMeansEmpty` | external/baseclasses/outputq.cpp:775-795 | without exact batching IsIdle's assertion holds on every run |
| `OutputQueueWakeUp.ExactBatchingIsIdleWithSamples` | external/baseclasses/outputq.cpp:785-793 | with exact batching it fails: a two-step run for every such configuration |
| `OutputQueueCalls.BooksAgree` | external/baseclasses/outputq.cpp:405-457 | on every run the counts of flushes, the references taken over and the events accepted are what the calls made add up to, by the result code each call found |
| `OutputQueueCalls.FailureSticks` | external/baseclasses/outputq.cpp:320-325 | on every run the first result that is not S_OK stays until EndFlush returns, a Reset has gone through or the destructor runs |
| `OutputQueueCalls.FlagFollowsPhase` | external/baseclasses/outputq.cpp:463-551 | on every run the flushing flag is up exactly from BeginFlush until EndFlush lowers it |
| `OutputQueueCalls.FlushRefusesAndReopens` | external/baseclasses/outputq.cpp:463-551 | from BeginFlush on everything is refused; the queue accepts again when EndFlush returns, early or not, and after a Reset |
| `OutputQueueCalls.RacedMeans` | external/baseclasses/outputq.cpp:701-713 | the runs left out of the flush theorems are exactly those where a flush begins with a Reset in flight, or a Reset is called during one |
| `OutputQueueCalls.NoResetNoRace` | external/baseclasses/outputq.cpp:701-713 | and without a call of Reset there are none |
| `OutputQueueCalls.CollectEnds` | external/baseclasses/outputq.cpp:218-289 | the inner loop stops at the first full batch, control packet or end of list: what it took before is samples only, all of them are in the batch, and the rest of the list is untouched |
| `OutputQueueOrder.CollectKeepsOrder` | external/baseclasses/outputq.cpp:218-289 | the worker's inner loop neither loses, adds nor reorders events, including end of stream and segments |
| `OutputQueueOrder.StepKeepsOrder` | external/baseclasses/outputq.cpp:203-371 | the line of events (sent, worker, batch, list) stays a subsequence of what was accepted under every step, and equal to it while undisturbed |
| `OutputQueueOrder.NothingLostOrReordered` | external/baseclasses/outputq.cpp:203-371 | on every run with no flush, destructor or downstream failure, what was sent followed by everything held equals the samples, ends of stream and segments of the calls made while the queue accepts, in call order |
| `OutputQueueOrder.SentInOrder` | external/baseclasses/outputq.cpp:203-371 | on every run at all, what was sent is a subsequence of the events of those calls |
| `OutputQueueOrder.ReleasedExactlyOnce` | external/baseclasses/outputq.cpp:675-698 | on every run the sample references passed to ReceiveMultiple, refused ones included, are those held in one place and those released; after the worker exits all are released, each once |
| `OutputQueueFlush.StepShakes` | external/baseclasses/outputq.cpp:463-551 | every step keeps the flush handshake: nothing is accepted during a flush, the event means nothing is held, and until it is set the worker has been woken |
| `OutputQueueFlush.RunKeepsFlushInv` | external/baseclasses/outputq.cpp:463-551 | so it holds on every run in which no Reset meets a flush |
| `OutputQueueFlush.FlushBarrier` | external/baseclasses/outputq.cpp:463-551 | on such a run every sample delivered, or in the worker's hands, was accepted after the BeginFlush of the last flush whose EndFlush had returned by then |
| `OutputQueueFlush.ResetDefeatsFlush` | external/baseclasses/outputq.cpp:340-367 | without it the barrier fails: a twelve-step run in which EndFlush is let through by a Reset's event, and the worker has a sample from before BeginFlush to deliver after it has returned |
| `OutputQueueFlush.FlushDoesNotHang` | external/baseclasses/outputq.cpp:534-535 | EndFlush never waits for a worker that sleeps unsignalled |
| `OutputQueueFlush.NeverDeliversWhenFlushed` | external/baseclasses/outputq.cpp:315-326 | the worker's assertions around ReceiveMultiple hold |
| `OutputQueueClass.COutputQueue.constructor` | external/baseclasses/outputq.cpp:43-139 | the fields start as the model does |
| `OutputQueueClass.COutputQueue.ReceiveMultiple` | external/baseclasses/outputq.cpp:675-698 | the samples are all queued and accepted if m_hr is S_OK, and otherwise all released and nothing else; the worker is woken unless an exact batch is still incomplete; refines Receive |
| `OutputQueueClass.COutputQueue.QueueAll` | external/baseclasses/outputq.cpp:687-691 | the loop appends the samples in order |
| `OutputQueueClass.COutputQueue.EOS` | external/baseclasses/outputq.cpp:451-457 | while m_hr is S_OK an end of stream is queued, the worker woken and the queue no longer flushed; otherwise nothing is queued |
| `OutputQueueClass.COutputQueue.QueueNewSegment` | external/baseclasses/outputq.cpp:405-429 | marker and parameters are queued next to each other, in one critical section, on an unlocked look at m_hr |
| `OutputQueueClass.COutputQueue.QueueSendAnyway` | external/baseclasses/outputq.cpp:374-390 | a request to send is queued and the worker woken, whatever m_hr is |
| `OutputQueueClass.COutputQueue.StartFlush` | external/baseclasses/outputq.cpp:463-492 | the flag is up and everything refused, an earlier failure kept; unless nothing was queued since the last flush, the event is reset and the worker woken |
| `OutputQueueClass.COutputQueue.CheckFlushed` | external/baseclasses/outputq.cpp:516-526 | EndFlush returns at once, accepting again, exactly if nothing was queued since the last flush and the option is on |
| `OutputQueueClass.COutputQueue.CompleteFlush` | external/baseclasses/outputq.cpp:534-550 | the wait consumes the event, and three fields are written outside the lock; together the four steps of the model |
| `OutputQueueClass.FourSteps` | external/baseclasses/outputq.cpp:534-550 | those four steps, when nothing falls between them |
| `OutputQueueClass.COutputQueue.QueueReset` | external/baseclasses/outputq.cpp:701-713 | a reset packet is queued and the worker woken; the rest of Reset is its wait |
| `OutputQueueClass.COutputQueue.Stop` | external/baseclasses/outputq.cpp:156-162 | the destructor asks the worker to end, refuses everything from then on and wakes it |
| `OutputQueueClass.COutputQueue.NotifyThread` | external/baseclasses/outputq.cpp:759-767 | signals every waiter and clears the count |
| `OutputQueueClass.COutputQueue.FreeList` | external/baseclasses/outputq.cpp:716-749 | empties the list; what it releases is exactly the samples in it |
| `OutputQueueClass.COutputQueue.FreeAll` | external/baseclasses/outputq.cpp:716-754 | list and batch are emptied, and their samples released |
| `OutputQueueClass.COutputQueue.CollectBatch` | external/baseclasses/outputq.cpp:218-289 | the loop over list and array ends where the recursive Collect does |
| `OutputQueueClass.COutputQueue.TakeBatch` | external/baseclasses/outputq.cpp:216-296 | the worker's critical section as one step of the model: terminate, flush or gather |
| `OutputQueueClass.COutputQueue.HandOver` | external/baseclasses/outputq.cpp:313-319 | an unlocked look at m_hr decides whether the batch is delivered |
| `OutputQueueClass.COutputQueue.KeepResult` | external/baseclasses/outputq.cpp:320-325 | the first failure sticks, and a flushing result is not overwritten |
| `OutputQueueClass.COutputQueue.ReleaseBatch` | external/baseclasses/outputq.cpp:327-329 | the loop releases every sample of the batch once |
| `OutputQueueClass.COutputQueue.ActOn` | external/baseclasses/outputq.cpp:340-369 | end of stream only while m_hr is S_OK; Reset clears it and sets the event; segments always go out |
| `OutputQueueClass.COutputQueue.CheckIdle` | external/baseclasses/outputq.cpp:775-795 | IsIdle, where the invariants establish its assertion |
| `Allocator.StepKeepsWaiters` | external/baseclasses/amfilter.h:1412-1425 | every critical section keeps: free buffers or a decommit mean m_lWaiting is 0; and m_lWaiting plus the semaphore count is the number of waiters plus the calls that asked not to wait |
| `Allocator.NoLostWakeUp` | external/baseclasses/amfilter.cpp:4731-4785 | on every run, while a buffer is free or the allocator is not committed, the semaphore has a count for every blocked caller |
| `Allocator.ExactCounts` | external/baseclasses/amfilter.h:1412-1416 | on every run the equality claimed in the comment holds if and only if no AM_GBF_NOWAIT call has come back with nothing |
| `Allocator.CountBroken` | external/baseclasses/amfilter.cpp:4731-4785 | a four-step run that breaks it |
| `Allocator.StepKeepsLife` | external/baseclasses/amfilter.cpp:4882-4966 | every call keeps the partition into free and outstanding samples and the commit states |
| `Allocator.RunKeepsInv` | external/baseclasses/amfilter.cpp:4731-4966 | both on every run |
| `Allocator.TakenKeepsLife` | external/baseclasses/amfilter.cpp:4731-4785 | handing out a buffer moves it from the free to the outstanding samples |
| `Allocator.ReturnedKeepsLife` | external/baseclasses/amfilter.cpp:4791-4841 | a returned buffer goes back to the free list, and completes a pending decommit with the last one |
| `Allocator.Lifecycle` | external/baseclasses/amfilter.cpp:4731-4966 | on every run free and outstanding samples partition the allocated ones, which are as many as agreed while committed or decommitting; the two exclude each other; decommit pending implies an outstanding buffer; the self-reference is held exactly in those two states |
| `Allocator.CallsAgree` | external/baseclasses/amfilter.cpp:4731-4841 | on every run the outstanding samples are those GetBuffer handed out and that have not come back, and the blocked callers those that found nothing and have not been woken |
| `Allocator.DecommitStops` | external/baseclasses/amfilter.cpp:4748-4751 | on every run nothing is handed out between a Decommit and the next Commit that succeeds |
| `Allocator.CommitSucceeds` | external/baseclasses/amfilter.cpp:4882-4918 | Commit succeeds at once on an allocator that is committed or decommitting, and otherwise exactly if it gets all the buffers agreed on |
| `Allocator.DecommitCompletes` | external/baseclasses/amfilter.cpp:4791-4841 | a pending decommit completes, and drops the self-reference, exactly when the last buffer returns |
| `Allocator.CommitCancels` | external/baseclasses/amfilter.cpp:4882-4918 | Commit during a pending decommit cancels it, with the same samples and reference |
| `Allocator.AllocKeepsPool` | external/baseclasses/amfilter.cpp:5122-5219 | allocation, also when it fails half-way, keeps the pool consistent |
| `Allocator.RoundedSizeIsLeast` | external/baseclasses/amfilter.cpp:5097-5104 | the size agreed is the least one not below the request that aligns buffer and prefix, and Alloc rounds no further |
| `Allocator.SlotSizeIsAligned` | external/baseclasses/amfilter.cpp:5144-5178 | a slot is aligned, holds prefix and buffer, and all slots together stay within MAXLONG |
| `Allocator.SlotsAreDisjoint` | external/baseclasses/amfilter.cpp:5189-5215 | the slots of one block do not overlap, prefixes included |
| `MemAllocator.CMemAllocator.constructor` | external/baseclasses/amfilter.cpp:4552-4584 | the fields start as the model does |
| `MemAllocator.CMemAllocator.SetProperties` | external/baseclasses/amfilter.cpp:5050-5112 | which of the four outcomes holds, in the order of the tests, and that only success changes the properties |
| `MemAllocator.CMemAllocator.AllocSamples` | external/baseclasses/amfilter.cpp:5122-5219 | refines Alloc: the loop creates the samples, or as many as memory allows |
| `MemAllocator.CMemAllocator.Commit` | external/baseclasses/amfilter.cpp:4882-4918 | succeeds exactly if the allocator is committed afterwards; a pending decommit is cancelled with buffers and reference kept; a new commit takes the reference |
| `MemAllocator.CMemAllocator.Decommit` | external/baseclasses/amfilter.cpp:4921-4966 | the allocator is not committed; the decommit is pending exactly if a buffer is out; the waiters are woken and the reference dropped if it is not pending |
| `MemAllocator.CMemAllocator.LockedGetBuffer` | external/baseclasses/amfilter.cpp:4731-4785 | the result is not committed, a buffer, a timeout or a wait by whether the allocator is committed, a buffer is free and the caller waits; the buffer is the head of the free list and is outstanding then; a caller without one is counted |
| `MemAllocator.CMemAllocator.ReleaseBuffer` | external/baseclasses/amfilter.cpp:4791-4841 | the buffer goes to the front of the free list, the waiters are woken, and a pending decommit ends with the last one |
| `MemAllocator.CMemAllocator.NotifySample` | external/baseclasses/amfilter.cpp:4872-4879 | signals every waiter |
| `DynamicPin.RunKeepsInv` | external/baseclasses/amfilter.cpp:4483-4517 | on every run: blocked implies no users, pending implies a user and a notify handle, the unblock event is set iff not blocked, and requests are signalled at most once |
| `DynamicPin.CallsAgree` | external/baseclasses/amfilter.cpp:4167-4247 | on every run the users are the calls that got the pin less those that stopped, and the waiters the calls that found it blocked less those whose wait has ended |
| `DynamicPin.BlockedIsUnused` | external/baseclasses/amfilter.cpp:4071-4112 | on every run, while the pin is blocked no thread has got it and not yet stopped; a request blocks it at once exactly if there is no such thread |
| `DynamicPin.SignalledExactlyOnce` | external/baseclasses/amfilter.cpp:4071-4165 | on every run a block request that came back Ok has been signalled exactly once unless its block is still pending, and no other ever was |
| `DynamicPin.WaitersGetIn` | external/baseclasses/amfilter.cpp:4167-4228 | on every run a user must wait exactly while the unblock event is not set, and nobody is kept waiting on a pin that is not blocked |
| `DynamicPin.StopEndsWait` | external/baseclasses/amfilter.cpp:4197-4210 | on every run a wait ends with the state-changed error exactly if the pin is still blocked and the stop event is set |
| `DynamicPin.PendingResolves` | external/baseclasses/amfilter.cpp:4230-4247 | a pending block takes effect exactly when the last user leaves, or ends by unblocking; its caller is signalled then |
| `DynamicPin.CDynamicOutputPin.AsynchronousBlockOutputPin` | external/baseclasses/amfilter.cpp:4071-4112 | the request is accepted exactly if the pin is not blocked; the pin is then blocked, or pending with the request noted, by whether it is in use |
| `DynamicPin.CDynamicOutputPin.BlockOutputPin` | external/baseclasses/amfilter.cpp:4114-4135 | the pin becomes blocked and its caller is signalled |
| `DynamicPin.CDynamicOutputPin.UnblockOutputPin` | external/baseclasses/amfilter.cpp:4137-4165 | the pin is not blocked and its event set, whatever it was; a pending request is cancelled and signalled |
| `DynamicPin.CDynamicOutputPin.StartUsing` | external/baseclasses/amfilter.cpp:4167-4181 | the pin is got exactly if it is not blocked, and the user counted; otherwise the caller is counted as waiting |
| `DynamicPin.CDynamicOutputPin.WaitForEvents` | external/baseclasses/amfilter.cpp:4194-4197 | the wait ends by the unblock event if that is set, else by the stop event |
| `DynamicPin.CDynamicOutputPin.ResumeStart` | external/baseclasses/amfilter.cpp:4199-4228 | after the stop event the call gives up; otherwise it gets the pin exactly if it is not blocked now, and is counted |
| `DynamicPin.CDynamicOutputPin.StopUsingOutputPin` | external/baseclasses/amfilter.cpp:4230-4247 | the user is gone, and the last one lets a pending block take effect |
| `PullPin.AlignDownMeaning` | external/baseclasses/pullpin.h:114-117 | for every power of two and every 64-bit number, negative ones too, the bit mask gives the largest multiple not above it |
| `PullPin.AlignUpMeaning` | external/baseclasses/pullpin.h:119-122 | and aligning up the least multiple not below it |
| `PullPin.AndMask` | external/baseclasses/pullpin.h:114-117 | masking off the low k bits of a w-bit word subtracts the remainder by 2^k |
| `PullPin.CPullPin.QueueSample` | external/baseclasses/pullpin.cpp:335-368 | a request starts where the last one ended, is as long as its buffer, and does not pass the aligned stop |
| `PullPin.CPullPin.CollectAndDeliver` | external/baseclasses/pullpin.cpp:370-394 | one request leaves flight |
| `PullPin.CPullPin.PullAll` | external/baseclasses/pullpin.cpp:491-507 | the inner loop keeps the number of requests in flight; it ends before the range does exactly for a failure or a refusal |
| `PullPin.CPullPin.PullAsync` | external/baseclasses/pullpin.cpp:465-515 | the asynchronous loops terminate; on success the requests tile the range and none is in flight; at most two ever are, one with a single buffer; every other outcome is explained by the call that caused it |
| `PullPin.CPullPin.PullSync` | external/baseclasses/pullpin.cpp:516-563 | the same for synchronous reads, one at a time |
| `PullPin.CPullPin.Process` | external/baseclasses/pullpin.cpp:432-566 | a run ends at the end of the stream unless a request, a delivery, the receiver or an interrupt stopped it; then it tiles exactly from the aligned-down start to the aligned-up end of the range, contiguously and without overlap |
| `FrameQueue.WrapIsModulo` | core/FrameQueue.cpp:32 | the ring positions used in the proofs are the code's modular ones |
| `FrameQueue.FrameQueue.constructor` | core/FrameQueue.cpp:10-16 | at least one frame of capacity, and one slot more |
| `FrameQueue.FrameQueue.Put` | core/FrameQueue.cpp:18-37 | a frame is appended, refused when closed, or rejected as too long; the slot last handed out and the queued ones are untouched |
| `FrameQueue.FrameQueue.WriteSlot` | core/FrameQueue.cpp:30-31 | the copy fills one slot of the byte storage and no other |
| `FrameQueue.FrameQueue.TakeLocked` | core/FrameQueue.cpp:59-68 | the oldest frame is handed out as a span, and becomes the spare slot |
| `FrameQueue.FrameQueue.Get` | core/FrameQueue.cpp:39-47 | first in, first out; queued frames drain after Close, then nothing |
| `FrameQueue.FrameQueue.GetFor` | core/FrameQueue.cpp:49-57 | the same, with an empty answer on a timeout |
| `FrameQueue.FrameQueue.Close` | core/FrameQueue.cpp:70-78 | closes without touching what is queued |
| `FrameQueue.FrameQueue.Read` | core/FrameQueue.h:36-39 | a byte read through the span handed out last is still that frame's, whatever Puts and failed Gets came since |
| `FrameQueueBlocking.RunKeepsInv` | core/FrameQueue.cpp:18-78 | on every run whoever is parked has reason to be, or a notification is on its way |
| `FrameQueueBlocking.NoDeadlock` | core/FrameQueue.cpp:18-78 | on every run producer and consumer are not both blocked unless a Close is about to wake them; once the Close calls have notified, nobody is blocked |
| `FrameQueueBlocking.LoadIsConserved` | core/FrameQueue.cpp:18-68 | on every run the load is what was put and not yet taken, and never above the capacity |
| `FrameQueueBlocking.ParksAndWakes` | core/FrameQueue.cpp:18-78 | a side parks exactly if its condition is false, and a notification wakes it |
| `FrameQueueBlocking.ClosedByClose` | core/FrameQueue.cpp:70-78 | the queue is closed from the first Close on and stays so |
| `RecordLoop.SendCurrent` | engine/DVEngine.cpp:477 | the frame sent is the one last taken, although the source keeps filling the ring between any two bytes read |
| `RecordLoop.TakeNext` | engine/DVEngine.cpp:482 | after a failed Get the frame in hand stays intact |
| `RecordLoop.Run` | engine/DVEngine.cpp:454-489 | for any source and engine behaviour, every turn sends one frame, and the next turn sends the next accepted frame exactly if the state was read as Recording and Get gave one, else the same frame again; the loop stops only when the state is Idle or Get blocks; when the queue is drained, the last accepted frame was sent |
| `Segments.EveryNthSnoc` | engine/DVEngine.cpp:410-417 | a counter that starts at zero picks, by its remainder, the frames of the decimation |
| `Segments.EveryNthAt` | engine/DVEngine.cpp:410-413 | the decimated file holds the frames at multiples of N, starting with the first |
| `Segments.EveryNthSize` | engine/DVEngine.cpp:410-413 | and no others |
| `Segments.SceneGaps` | engine/DVEngine.cpp:364-377 | the recursive scene condition bounds the gap of any two neighbouring recording times, across frames that carry none |
| `Segments.ClosedGood` | engine/DVEngine.cpp:301-306 | closing the open file keeps the files as they should be, with its finish counted once |
| `Segments.PreparedFits` | engine/DVEngine.cpp:396-409 | a file that is kept has room, and the frame is of its scene; a new file takes any frame |
| `Segments.PlacedGood` | engine/DVEngine.cpp:394-417 | a captured frame keeps the files a division of the captured frames into consecutive stretches, each written as every Nth frame, within the limit and one scene |
| `Segments.NewCut` | engine/DVEngine.cpp:394-409 | a file closed for the next frame is full, or the recording time has jumped by more than the threshold |
| `Segments.PlacedCuts` | engine/DVEngine.cpp:394-417 | so no file is begun without need while frames are placed |
| `Segments.ProcessedKept` | engine/DVEngine.cpp:380-437 | a turn with a frame keeps the division into files and the reason for every cut, also when it throws |
| `Segments.AllFinished` | engine/AviWriter.cpp:64-82 | when no file is open, each was finished exactly once |
| `Capture.CaptureLoop.constructor` | engine/DVEngine.cpp:318-334 | no file, no writer, counters at their start |
| `Capture.CaptureLoop.Look` | engine/DVEngine.cpp:341 | a reading of the state, after whatever the controlling thread did before it |
| `Capture.CaptureLoop.FinishOnItsOwn` | engine/DVEngine.cpp:308-316 | the accesses of FinishOnItsOwn on the engine, and the captured frames at that point |
| `Capture.CaptureLoop.FinishWriter` | engine/DVEngine.cpp:301-306 | the open file is finished once and its writer destroyed, even when Finish throws |
| `Capture.CaptureLoop.ResetWriter` | engine/AviWriter.cpp:64-74 | the destructor finishes a file that was not finished yet, and no other |
| `Capture.CaptureLoop.CreateWriter` | engine/DVEngine.cpp:399-409 | a new file starts empty, with the counters reset |
| `Capture.CaptureLoop.AddFrame` | engine/DVEngine.cpp:410-418 | every Nth frame is written; the frame joins the file unless writing it throws |
| `Capture.CaptureLoop.TrackTime` | engine/DVEngine.cpp:364-377 | the gap is measured from the last recording time, across frames without one |
| `Capture.CaptureLoop.PrepareFile` | engine/DVEngine.cpp:394-409 | an open file with room, and no gap too large, is kept as it is; otherwise an empty one is started, unless closing or creating throws |
| `Capture.CaptureLoop.SegmentFrame` | engine/DVEngine.cpp:394-417 | the frame is placed by that rule; an exception leaves a closed or a fresh file |
| `Capture.CaptureLoop.CountTime` | engine/DVEngine.cpp:419-425 | the clock advances, and the capture finishes exactly if the limit read is reached; undisturbed, the state is then Finished for that reason |
| `Capture.CaptureLoop.CaptureFrame` | engine/DVEngine.cpp:394-425 | a captured frame goes into a file and onto the capture clock, or neither |
| `Capture.CaptureLoop.ObserveState` | engine/DVEngine.cpp:341-348 | each capture the loop observes starts a new signal watch and looks at the disk straight away |
| `Capture.CaptureLoop.OnTimeout` | engine/DVEngine.cpp:350-359 | the file ends and FinishOnItsOwn runs if and only if the signal is lost, which needs an earlier frame in that capture as the loop observes it |
| `Capture.CaptureLoop.EndCapture` | engine/DVEngine.cpp:355-356 | the file is finished before the engine, and neither stop is asked for when that throws |
| `Capture.CaptureLoop.CheckDisk` | engine/DVEngine.cpp:385-392 | the disk is looked at every 25 frames of a capture; a nearly full one, and nothing else here, ends file and capture |
| `Capture.CaptureLoop.OnIdleFrame` | engine/DVEngine.cpp:427-436 | outside a capture no file stays open, and the clock starts again unless the engine has finished on its own |
| `Capture.CaptureLoop.DecideFrame` | engine/DVEngine.cpp:394-437 | a frame is captured exactly if the state read here is Capturing, and never once it is Finished or Idle |
| `Capture.CaptureLoop.OnFrame` | engine/DVEngine.cpp:360-437 | the steps of a turn with a frame, with files, times and stops as they should be |
| `Capture.CaptureLoop.OneTurn` | engine/DVEngine.cpp:336-437 | every turn keeps files, stops and engine state as they should be; undisturbed, it takes the frame and finishes at the limit, or finishes on a full disk or a lost signal |
| `Capture.CaptureLoop.Loop` | engine/DVEngine.cpp:318-438 | once the state is Finished or Idle nothing more is captured; and an uninterrupted capture begun below its limit takes the arriving frames without a gap and finishes, for the reason Duration, exactly on the first frame that reaches the limit, unless a full disk or a lost signal ended it before |
| `Capture.CaptureLoop.Run` | engine/DVEngine.cpp:286-299 | files concatenate to the captured frames; each is as it should be and finished exactly once, also on exceptions; of two neighbouring files the first is full, or the recording time jumped by more than the threshold, or the capture paused or was stopped between them, or the second could not be written; every stop was justified; the engine state is one its state machine reaches, and if it is Finished, nothing was captured after it became so |
| `Capture.QuietFrame` | engine/DVEngine.cpp:360-437 | what a turn with a frame does to engine and clock while nobody interferes |
| `Capture.QuietTimeout` | engine/DVEngine.cpp:350-359 | and one without |
| `Capture.StaysUninterrupted` | engine/DVEngine.cpp:336-437 | those turns, one after the other, add up to an uninterrupted capture |
| `Engine.StepKeepsInv` | engine/DVEngine.cpp:88-316 | every access to the atomics keeps the invariant that ties state, worker and reason |
| `Engine.RunKeepsInv` | engine/DVEngine.cpp:88-316 | so it holds for all interleavings |
| `Engine.FinishedTransitions` | engine/DVEngine.cpp:308-316 | Finished is entered only from Capturing or Recording by the worker, left only to Idle by Destroy, and never overwritten by a Start |
| `Engine.FinishedHasReason` | engine/DVEngine.cpp:308-312 | on every run Finished carries a reason if and only if no Start call has cleared it since the worker last wrote one |
| `Engine.UnstoppedCaptureHasReason` | engine/DVEngine.cpp:192-222 | on every run without StopCapturing, and with StartRecording only called in RecordPaused, a finished capture has a reason |
| `Engine.UnstoppedRecordingHasReason` | engine/DVEngine.cpp:246-261 | on every run without StopRecording, and with StartRecording only called in RecordPaused, a finished recording has a reason |
| `Engine.FinishMeaning` | engine/DVEngine.cpp:308-316 | whatever the controlling thread does in between, FinishOnItsOwn finishes exactly if the state is unchanged at its exchange, and then with its reason unless a Start call cleared it there |
| `Engine.FinishUndisturbed` | engine/DVEngine.cpp:308-316 | with nobody interfering, the state is Finished for that reason |
| `Engine.RunKeeps` | engine/DVEngine.cpp:192-261 | the controlling thread never enters Finished, leaves it only in Destroy, and takes away its reason only in StartRecording |
| `Engine.CaptureCallsTakeEffect` | engine/DVEngine.cpp:192-222 | with nothing in between, StartCapturing starts a paused capture with its limit and no reason, and StopCapturing pauses one that runs; in other states they change nothing |
| `Engine.RecordCallsTakeEffect` | engine/DVEngine.cpp:246-261 | StartRecording and StopRecording do the same for a recording, but that the reason is cleared in any state |
| `Engine.DestroyAndBuild` | engine/DVEngine.cpp:88-190 | after Destroy and Build the engine is fresh and paused, whatever it was |
| `Engine.FinishedWithoutReason` | engine/DVEngine.cpp:200-218 | a concrete interleaving in which it was cleared |
| `CaptureNaming.NextCaptureFilename` | core/CaptureNaming.cpp:50-99 | the loop computes the name the summary of the existing names determines |
| `CaptureNaming.ScanSummarizes` | core/CaptureNaming.cpp:50-94 | width is the widest numbering present or asked for, highest the highest number of that width, plainExists whether the plain name exists |
| `CaptureNaming.SummaryUnique` | core/CaptureNaming.cpp:50-94 | that summary is determined by which names exist |
| `CaptureNaming.OrderDoesNotMatter` | core/CaptureNaming.cpp:50-99 | the result depends neither on the order of the names nor on repetitions |
| `CaptureNaming.NextPartIsPart` | core/CaptureNaming.cpp:95-98 | the last component of the returned path is the stem's own with the chosen suffix, the name the other results are about |
| `CaptureNaming.NumberedIsRecognized` | core/CaptureNaming.cpp:64-83 | a name equal to "name.digits.avi" up to case is recognized with exactly those digits |
| `CaptureNaming.RecognizedIsNumbered` | core/CaptureNaming.cpp:64-83 | and no other name is |
| `CaptureNaming.FirstName` | core/CaptureNaming.cpp:95-98 | where nothing exists the name is the plain one, or number zero in the width asked for |
| `CaptureNaming.PlainName` | core/CaptureNaming.cpp:85-98 | while nothing is numbered and no digits are asked for, the plain name is chosen exactly if it is free, else ".0" |
| `CaptureNaming.NumberingContinues` | core/CaptureNaming.cpp:85-98 | the highest number of the widest numbering is raised by one, in the same width unless it needs one more digit |
| `CaptureNaming.NumberingBegins` | core/CaptureNaming.cpp:85-98 | where only narrower numbers exist, it begins at zero in the width asked for |
| `CaptureNaming.TakenOnlyWhenExhausted` | core/CaptureNaming.cpp:50-99 | with at most nine digits the chosen name is already taken, up to case, if and only if number 999999999 and the ten-digit name after it both exist |
| `CaptureNaming.TwoFilesExhaust` | core/CaptureNaming.cpp:50-99 | two files after which that happens, for any stem |
| `CaptureNaming.TooManyDigits` | core/CaptureNaming.cpp:76-80 | with more than nine digits asked for, number zero is chosen whatever exists, and is taken exactly if its name is |
| `CaptureNaming.OneFileIsTaken` | core/CaptureNaming.cpp:76-80 | one file after which that happens |
| `CaptureNaming.NextRaisesByOne` | core/CaptureNaming.cpp:85-99 | the chosen name is free and raises the highest number by at most one |
| `CaptureNaming.FeedIsFree` | core/CaptureNaming.cpp:50-99 | feeding results back, each name is free when chosen |
| `CaptureNaming.FeedIsDistinct` | core/CaptureNaming.cpp:50-99 | so the names of a feed are pairwise distinct up to case |
| `CaptureNaming.BaseIsRecovered` | core/CaptureNaming.cpp:35-43 | CaptureBaseFromFilename returns the base a name was made from if and only if the base's last component has no dot and the date no separator |
| `CaptureNaming.RecoveredFrom` | core/CaptureNaming.cpp:101-107 | the same for any extension of a base by a dotted tail |
| `Decimal.PaddedNumber` | core/CaptureNaming.cpp:96-98 | printing a number and reading it back gives it again |
| `Decimal.PaddedLength` | core/CaptureNaming.cpp:96-98 | a number prints with at most k digits exactly when it is below 10^k |
| `CommandLine.ParseDuration` | core/CommandLine.cpp:34-62 | the parser accepts exactly one to three decimal fields of at most nine digits with an optional all-digit fraction, and returns base-60 seconds in units of 100 ns plus the first seven fraction digits |
| `CommandLine.ParseField` | core/CommandLine.cpp:13-26 | a field is read exactly if it is decimal with at most nine digits |
| `CommandLine.ParseFraction` | core/CommandLine.cpp:36-48 | the weighted sum is the number formed by the first seven digits, filled up with zeros |
| `CommandLine.ParseFields` | core/CommandLine.cpp:50-60 | the loop splits at colons and accumulates in base 60 |
| `CommandLine.FractionStep` | core/CommandLine.cpp:38-46 | one more fraction digit adds its weight, and nothing from the eighth on |
| `CommandLine.PrintedIsRead` | core/CommandLine.cpp:34-62 | every h:mm:ss.fffffff with up to nine digits of hours is read back as printed |
| `CommandLine.FieldsJoin` | core/CommandLine.cpp:50-60 | the fields are the text cut at its colons, and nowhere else |
| `CommandLine.SecondsAreRead` | core/CommandLine.cpp:34-62 | seconds printed alone are read back |
| `CommandLine.MinutesAreRead` | core/CommandLine.cpp:34-62 | m:ss is read back |
| `CommandLine.HoursAreRead` | core/CommandLine.cpp:34-62 | h:mm:ss is read back |
| `CommandLine.FitsExactly` | core/CommandLine.cpp:50-61 | the value fits a signed 64-bit number if and only if it is at most 922337203685 seconds and 4775807 units |
| `CommandLine.ShortHoursFit` | core/CommandLine.cpp:50-61 | with at most eight digits of hours the value fits a signed 64-bit number |
| `CommandLine.LongHoursOverflow` | core/CommandLine.cpp:50-61 | with nine it need not |

## Left out

Parts of the modelled code:

- MulDiv.EnlargedUnsignedDivide: the portable version only; the x86 assembly and the `USE_LARGEINT` branch of `llMulDiv` are not part of this model.
- AdviseList.AdviseOk: assumes that no surviving packet reaches MAX_TIME, because the source lets the sum of time and period wrap; cookies are unbounded, and an allocation that fails is not modelled.
- ReferenceClock.NoAdviseIsLate: says nothing about a thread that oversleeps or is slow to wake, and the internal clock is one that ticks by itself; Serve assumes that no surviving packet reaches MAX_TIME.
- ReferenceClock.ElapsedIsExact: takes the platform's 32-bit by 32-bit multiply to be signed; that macro is not part of the repository.
- ReferenceClock.CBaseReferenceClock.AdviseTime: null pointers, `Restart` and the shutdown of the thread are left out.
- Schedule.CAMSchedule.Advise: assumes the same of packets that would be put back at or past MAX_TIME, which ShuntHead asserts not to happen.
- OutputQueueFlush.FlushBarrier: excludes runs in which a Reset meets a flush, where ResetDefeatsFlush shows it to fail without exact batching; on a single such run it may still hold. One flushing thread pairs its calls, as the interface demands.
- OutputQueueOrder.NothingLostOrReordered: queued mode only; direct mode, the pop event and a failing list allocation in `QueueSample` are left out.
- OutputQueueWakeUp.IdleMeansEmpty: not claimed for exact batching, where it is false.
- OutputQueueClass.COutputQueue.CompleteFlush: the wait is a step that is enabled once signalled, and fairness of the scheduler is not modelled.
- Allocator.NoLostWakeUp: says that every blocked caller has a semaphore count, not in which order the operating system wakes them.
- MemAllocator.CMemAllocator.SetProperties: the test against the allocation granularity is an input, negative alignments count as bad, and the sum of size and prefix is unbounded.
- MemAllocator.CMemAllocator.ReleaseBuffer: the notify callback and the reference it holds on the sample are left out.
- DynamicPin.CDynamicOutputPin.AsynchronousBlockOutputPin: failing handle duplication, failing waits and format changes on a connected pin are left out.
- PullPin.CPullPin.Process: products of times do not overflow; timestamps put on delivered samples and cancelled requests are left out.
- FrameQueue.FrameQueue.Put: modelled from the moment its wait is over; the wait itself is in FrameQueueBlocking, and the mutex gives each call its atomicity.
- FrameQueue.FrameQueue.Get: the same.
- RecordLoop.Run: one source thread, whose calls fall between the reads of two bytes, or before Get, and not inside another call, because the mutex keeps them apart; the preview window and the counters on display are left out.
- Capture.CaptureLoop.Run: settings are fixed for a run; clock and disk readings and the controlling thread's accesses are inputs of each turn; dropped-frame counts, the preview, m_time as others see it and file names given to the writer are left out.
- Engine.FinishedHasReason: deck control, threads that fail to start and exceptions in Build are left out; the controller's calls do not overlap.
- CaptureNaming.NextCaptureFilename: letters fold as in the "C" locale; a numeric field wider than the print buffer is left out.
- CommandLine.ParseDuration: computed on unbounded numbers; FitsExactly says when the source's 64-bit sum is the same.

Parts of the repository:

- Graph building, pins, media types, property pages, registration and every other COM call: foreign calls.
- The user interface, the launcher, the registry, file search, disk space and device enumeration: input and output.
- Deck modes, transport logic, device paths and decoding of DV timestamps: finite tables or single branches.
- `FormatTime`, `mktime` and the rest of the command line: library calls and simple dispatch.
- Renderer heuristics and other floating-point code.
