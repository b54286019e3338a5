# Verified model of the ath9k-htc target firmware's data path

The firmware of the AR9271 and AR7010 boards runs the lower half of an 802.11n driver. This project
models the parts of it that keep state across interrupts, and proves what they promise:

* **Block-ack transmit engine** (`Frames`, `Window`, `Aggregate`, `Softc`, `Session`, `Engine`, `Steps`,
  `Completions`, `Growth`, `Conservation`, `Runs`, `Held`, `Outcomes`, `Scheduling`, `Turns`, `Bystander`,
  `Queues`, `Idle`, `IdleRuns`, `Teardown`, `Stall`, `Failures`, `Leftover`, `Driver`): the originator's
  64-frame window over 12-bit sequence numbers (section 9.21.7.7 of IEEE 802.11-2012), software queues, A-MPDU formation (section
  8.6.1), partial acknowledgement, the BAR, session teardown, drain, and the rotation of buffers through
  the one that is held. `Softc` says on values what each routine does. Class `Driver.Transmitter` does it
  on objects: identifiers that each own a bitmap, hardware queues, and lists of references to
  identifiers; it is proved to do what `Softc` says of the values these stand for. The other modules prove
  what every allowed run of those routines keeps, and show runs on which the firmware fails.
* **Descriptors and chains** (`Descriptors`, `Unchain`): the link chains hardware follows, on heap
  objects, from formation to the completion that takes them apart.
* **Airtime** (`Airtime`, `RateRows`): the rate tables' limits and the time an aggregate takes, and
  the way back from a series entry to the row it was made from.
* **Rate controller** (`RateList`, `RateControl`, `RateSeries`, `RateNode`, `RateUpdate`, `RateTables`,
  `RateFailures`):
  error estimates, the highest rate allowed, probing, the sorted list of rates and the retry series. Class
  `RateNode.Node` is the in-place form. The rate table is a parameter; `RateUpdate` says what one
  outcome and one choice mean, and `RateTables` has the rows of the three tables and says which of them a peer can
  be given.
* **Receive ring and clock** (`RxRing`, `Tsf`): the descriptor ring with its held descriptor, reading
  a 64-bit clock in two halves, and placing a 32-bit stamp.
* **Packet numbers** (`PacketNumber`): the CCMP and TKIP counter and its header bytes (sections
  11.4.3.2 and 11.4.2.2 of IEEE 802.11-2012).

Hardware and the environment are arguments: the status and block ack of a completed descriptor, the
aggregate limit of each scheduling decision, the values the clock shows, whether a descriptor is
done, and the ticks of the millisecond clock. Each is arbitrary in every theorem.

Most theorems about runs come in two strengths. With `strict` false a run may enable aggregation at any
time but during a teardown, and the bitmap covers the outstanding numbers. With `strict` true it enables it
only where no bit left behind by a drain lies ahead of the next number, and the bitmap is exact.

`dafny verify dfyconfig.toml` checks the project.

## What the proofs found

Each of these is a lemma with a run that fails, or an exact condition, or both.

* A teardown goes well if and only if what the window counts exceeds the frames in hardware by exactly the
  frames sent before aggregation was enabled that are still ahead of them (`Teardown.TeardownGoesWellIff`, in
  every session of every allowed run). Each such frame takes one off the count; then teardown ends early, and an
  aggregate that straddles the end of the count loses buffers (`Teardown.CleanupKeepsBuffersIff`,
  `Failures.BufferLost`). A bit left behind by a drain adds one; then teardown waits for ever
  (`Leftover.NeverEnds`). `Teardown.RightCountIff` takes the two apart.
* `ath_tgt_tid_drain` empties the window but leaves its bits in the bitmap: exactly those of the
  unresolved numbers (`Session.DrainLeavesBits`). Nothing is wrong until a teardown throws new frames away;
  the next number sent then makes such a bit a member again if and only if one was left before it
  (`Session.LeftBitReturnsIff`, `Session.LeftBit`, `Window.AddExactIff`), and the next teardown counts it
  (`Window.FlushCountsIff`).
* A teardown discards new frames but not their numbers (`Stall.TeardownGap`). The gap adds up over sessions of
  which nothing is sent; the first frame sent closes it (`Stall.SendingClosesGap`). With an empty window, nothing
  can be sent if and only if the gap is 64 or more (`Stall.NothingChosenIff`), and it stays so over every run that
  does not end the session (`Stall.WideGapSendsNothing`). `Failures.StallReached` is a run from attachment that
  gets there with the smallest pool of buffers the firmware is built with.
* A scheduling call serves one identifier and stops, even if that one has nothing it may send. Then the
  hardware queue can stand idle though the next on the list could send (`Idle.ScheduleWorksIff`): only after a call
  wasted in this way, or a stop without a drain (`Idle.IdleIsLeftIdle`); and until a frame comes that is sent at
  once (`Idle.IdleLasts`). A call is wasted on a session that has stalled, and on an identifier whose session ended
  while it was on the list (`Idle.WastedOn`); `IdleRuns.IdleAfterStall` and `IdleRuns.IdleAfterEnd` are runs.
* The descriptor hardware finished last is kept in one slot for all four queues, so it is kept only until any
  frame is handed back: a teardown with a frame queued frees it (`Held.HeldFreedIff`, `Held.TeardownFrees`).
* A BAR is made of a frame with at least ten retries, so the branch that sends a BAR again is never
  taken (part of `Runs.GoodHeadSafe`).
* An aggregate may take 4004 us, at the one row `Airtime.RowBound` names; 4000 us elsewhere.
* The rate search ends at the first rate whose user rate is no more than the product found so far, though
  one is a percentage times the other. `RateControl.SearchFinds` says what it returns. It is the highest
  allowed rate whose error estimate is below 100% if and only if no live rate below overtakes it
  (`RateControl.FindsTopIff`). None ever does: not on AR9271, whose list is in order of user rate
  (`RateControl.Ar9271FindsTop`), nor on AR7010, where no peer is given rows whose user rates are out of order
  (`RateTables.RunFindsTop`). So the rate of the greatest product can be missed: `RateFailures.EarlyStop` is
  a run from a rate set over rows of the AR9271 table.
* Three changes of the upper clock word during one read can produce a time the clock had not reached
  (`Tsf.ThreeChangesTear`), if and only if the lower half fell between the last two reads (`Tsf.GetTsf64`).
* The receive pool has as many buffers as descriptors, one more than can be linked. A buffer returned
  while no descriptor is idle goes to no list, so that spare one can be lost; never a second
  (`RxRing.Ring.RxComplete`, `RxRing.RingMirror`).

## Model

| member | source | states |
|---|---|---|
| Window.AddRepresents | target_firmware/wlan/if_owl.c:1594-1611 | adding a number inside the window makes exactly it a new member of the set the bitmap represents; the tail moves just past it when it lay beyond the tail, and not otherwise |
| Window.AddExactIff | target_firmware/wlan/if_owl.c:1594-1611 | the members stay exact if and only if no bit was left behind in the places the window grows over |
| Window.ResolveRepresents | target_firmware/wlan/if_owl.c:1928-1943 | resolving a number removes exactly it; the start slides only over resolved numbers and stops at the oldest unresolved one or at the tail |
| Window.RepresentsUnique | target_firmware/wlan/if_athvar.h:268-280 | a bitmap with head and tail stands for one set only, so the refinement is exact |
| Window.FlushCounts | target_firmware/wlan/if_owl.c:1981-1989 | emptying the window counts at least the outstanding numbers, exactly them if the window is exact, and starts after its last number |
| Window.FlushCountsIff | target_firmware/wlan/if_owl.c:1981-1989 | the count is the number of outstanding numbers if and only if the window holds nothing else |
| Window.BlockAckWindow.AddTo | target_firmware/wlan/if_owl.c:1594-1611 | the in-place array version is the window operation, and does nothing for a retried frame |
| Window.BlockAckWindow.Update | target_firmware/wlan/if_owl.c:1928-1943 | the in-place loop is the window operation |
| Window.BlockAckWindow.Empty | target_firmware/wlan/if_owl.c:1981-1989 | the in-place loop is the window operation, counting on from the old count |
| Aggregate.AggregateLayout | target_firmware/wlan/if_owl.c:1500-1592 | the chosen frames are a prefix of the queue, inside the window and at most 17 or 22; the length is the end of the last, each one before it taking what DelimitersFill says, and within the limit from two frames on; formation stops only where the next frame cannot join |
| Aggregate.DelimitersFill | target_firmware/wlan/if_owl.c:1560-1577 | padding and delimiters of a followed subframe come to 4 octets and its length, rounded up to a multiple of 4, at least 256, and 40 more for AES, 256 for WEP and TKIP, 48 for WAPI, none in clear |
| Aggregate.SubframesAligned | target_firmware/wlan/if_athvar.h:108-116 | every subframe starts on a four-octet boundary, and each one that is followed fills at least 256 octets |
| Aggregate.ZeroLimitSendsOne | target_firmware/wlan/if_owl.c:1486-1487 | with the zero limit of a probe or legacy rate an aggregate has exactly one frame |
| Session.SendFirst | target_firmware/wlan/if_owl.c:1517-1584 | sending the head of the queue, retried or new, keeps the window equal to the retried frames and what hardware holds, the new number extending it by exactly one place |
| Session.QueueNew | target_firmware/wlan/if_owl.c:1332-1346 | a new frame queued behind the others keeps the order and the numbering of the queue |
| Session.SendAtOnce | target_firmware/wlan/if_owl.c:1347-1362 | a new frame sent at once keeps the session, and its number was not outstanding |
| Session.ResolveHeld | target_firmware/wlan/if_owl.c:1928-1943 | resolving a number hardware held keeps the session |
| Session.RetryHeld | target_firmware/wlan/if_owl.c:1823-1834 | a frame given back for a retry goes to the head and its number stays in the window |
| Session.CleanupCounts | target_firmware/wlan/if_owl.c:1957-1994 | teardown empties queue and window, and adds to the count at least the number of frames in hardware, exactly that if the window is exact |
| Session.DrainLeavesBits | target_firmware/wlan/if_owl.c:713-724 | a drain leaves an empty window, and in the bitmap exactly the bits of the numbers unresolved |
| Session.LeftBitReturnsIff | target_firmware/wlan/if_owl.c:713-724 | after a drain and a teardown that discards new frames, the next number sent leaves the window exact if and only if no bit was left behind before it |
| Session.LeftBit | target_firmware/wlan/if_owl.c:713-724 | one was, if a number less than the discarded count ahead was unresolved at the drain |
| Completions.ProcessInv | target_firmware/wlan/if_owl.c:651-701 | one completion, whatever its status and block ack, keeps the invariant of every traffic identifier, provided a teardown that an unanswered BAR starts finds no plain frame ahead of an aggregated one |
| Completions.ReceiveInv | target_firmware/wlan/if_ath.c:728-769 | a frame from the host keeps the invariant of every traffic identifier |
| Completions.DisableInv | target_firmware/wlan/if_ath.c:1265-1267 | ending a session keeps the invariant of every traffic identifier, provided no plain frame of its own is ahead of an aggregated one in hardware |
| Steps.ScheduleInv | target_firmware/wlan/if_owl.c:1299-1329 | a scheduling decision with any limit keeps the invariant of every traffic identifier |
| Outcomes.WindowRefinement | target_firmware/wlan/if_owl.c:1594-1611 | over every allowed run from attachment the bitmap covers the outstanding numbers, queued for a retry or in hardware, all distinct and within 64 of the start, and if strict holds no other; outside a session it is empty and incomp covers the frames in hardware, if strict exactly |
| Runs.StepKeepsInv | target_firmware/wlan/if_owl.c:651-701 | every allowed event keeps the invariant |
| Runs.GoodHeadSafe | target_firmware/wlan/if_owl.c:2025-2051 | the invariant makes each completion safe: a teardown's count covers the entry completed, and a BAR carries enough retries never to be sent again |
| Runs.RunConserves | target_firmware/wlan/if_owl.c:651-701 | over every allowed run, drains of stopped queues included, the invariant holds at the end, and each buffer and frame is as often in the system as before, plus what the run brought in |
| Runs.BuffersConserved | target_firmware/wlan/if_owl.c:989-1015 | after any allowed run from attachment each buffer is in exactly one of free list, held slot, software queue and hardware queue, and each frame is queued or handed back exactly as often as it was received |
| Held.LastDescriptorKept | target_firmware/wlan/if_owl.c:292-342 | after any allowed run and one completion more, the buffer whose descriptor hardware finished last is not on the free list, and over any run after that it stays off until a frame is handed back; unless a lone frame was retried in place, its descriptor having a link, no frame waiting to be sent is in it |
| Held.HeldFreedIff | target_firmware/wlan/if_owl.c:989-1015 | an event other than the arrival of a frame frees the buffer in the slot if and only if it hands a frame back, on whatever queue; a teardown does so exactly when it has a queued frame to throw away, a drain exactly when somebody listed has one; an arriving frame never does |
| Held.TeardownFrees | target_firmware/wlan/if_owl.c:1957-1976 | a run of five events from attachment on which a teardown frees the buffer that the completion before it had put into the slot |
| Held.LastParked | target_firmware/wlan/if_owl.c:1899-1925 | after a completion that buffer is held or carries a BAR, unless a lone frame is retried whose descriptor has a link: then the frame keeps its buffer and the slot is untouched |
| Conservation.ProcessConserves | target_firmware/wlan/if_owl.c:292-342 | one completion keeps every buffer and frame through toggling, chaining and freeing, and spends at least one credit, a measure of the completions still possible |
| Conservation.ProcessSpends | target_firmware/wlan/if_owl.c:651-701 | in every state one completion creates no buffer and spends a credit, even where it loses a buffer |
| Growth.StepGrew | target_firmware/wlan/if_owl.c:651-701 | every event leaves well-formed entries, and only a completion takes one off a hardware queue |
| Growth.RunShape | target_firmware/wlan/if_owl.c:2073-2150 | over every run, whatever its events, entries are well-formed: a BAR is alone and carries ten retries or more, an aggregate is of one identifier on its own queue |
| Runs.DrainTerminates | target_firmware/wlan/if_owl.c:651-701 | after every run, processing a stopped queue ends with it empty after at most as many completions as there are credits, though completions put frames back, send BARs and serve other identifiers |
| Runs.DrainConserves | target_firmware/wlan/if_ath.c:644-674 | the whole drain of a queue, completions first and then its list, keeps the invariant, every buffer and every frame, and leaves the queue, its list, and the software queue of each of its identifiers empty, retried frames or not |
| Runs.PausedHasEntry | target_firmware/wlan/if_owl.c:170-190 | after every strict run from attachment a paused identifier has an aggregated frame or a BAR of its own in its hardware queue, and one with frames queued is on its list or has such an entry |
| Runs.ProcessAllSnoc | target_firmware/wlan/if_owl.c:651-701 | one more completion does nothing to an empty queue and completes the head of another |
| Driver.Transmitter.ProcessStopped | target_firmware/wlan/if_owl.c:651-701 | in every state with well-formed entries the in-place loop terminates, leaves the queue empty, and did one completion after the other |
| Outcomes.AggregatePartition | target_firmware/wlan/if_owl.c:1613-1699 | a frame is delivered exactly if its number is the i-th from the block ack's start for a set bit i below 64, and status and flags were good; otherwise given up after ten retries, else retried. Delivered frames, and given-up ones after the first, are handed back in order; the first given up becomes the one BAR and the identifier is paused; the retried ones, in order, with one more retry, come before the old queue, whose identifier then is on its list unless paused; nbad is the number not delivered |
| Outcomes.AckedIff | target_firmware/wlan/if_athvar.h:97-106 | the completion loop's question about a bit is that one |
| Outcomes.LoneOutcome | target_firmware/wlan/if_owl.c:1878-1925 | a frame sent alone is handed back unless retries ran out in the air; after ten retries it becomes the BAR; before that it is the head of the queue, in its own buffer if its descriptor has a link, else in the held one, its own being held |
| Outcomes.BarUnanswered | target_firmware/wlan/if_owl.c:2025-2051 | an unanswered BAR leaves the identifier outside a session, queue and window empty, its next number the start of the window, and hands back every queued frame and its own |
| Outcomes.BarAnswered | target_firmware/wlan/if_owl.c:2053-2071 | an answered BAR is handed back and the session goes on: not paused, start and next number as before, and what of its queue is sent at once is a first part of it |
| Outcomes.DecisionSends | target_firmware/wlan/if_owl.c:1364-1446 | a scheduling decision sends one entry of exactly the frames at the head of the queue that can form an aggregate within the limit, or nothing if the first is outside the window |
| Outcomes.FrameTaken | target_firmware/wlan/if_ath.c:728-769 | a frame from the host goes straight back if its node is unknown or no buffer is free; otherwise it is last in its software or hardware queue, with the next number, its length and key, as depth, queue, pause and window decide; one queued joins its list unless paused or on it |
| Outcomes.BarSafety | target_firmware/wlan/if_owl.c:2073-2150 | a completion that gives up a frame sends one BAR, with the identifier paused, and every number still outstanding is at or less than 64 after the BAR's start |
| Teardown.TeardownExact | target_firmware/wlan/if_owl.c:1743-1794 | during teardown the count is the number of frames in hardware; completing an entry takes off exactly its frames; teardown ends, with the identifier resumed, exactly on the last one |
| Teardown.CleanupKeepsBuffersIff | target_firmware/wlan/if_owl.c:1743-1794 | completing an aggregate during teardown keeps every buffer if and only if the count covers it |
| Teardown.TeardownGoesWellIff | target_firmware/wlan/if_owl.c:726-741 | after the host ends a session, in any state the invariant allows, completing the queue loses no buffer of the identifier and ends teardown exactly on the last counted frame, if and only if what the window counts exceeds the frames in hardware by the plain frames ahead of the last aggregated one |
| Teardown.QueueGoesWellIff | target_firmware/wlan/if_owl.c:726-741 | if the completions of the other identifiers are safe, the whole queue keeps every buffer and teardown ends on time under exactly the same condition |
| Teardown.RightCountIff | target_firmware/wlan/if_owl.c:1957-1994 | with no plain frame ahead the count is right exactly when the window holds nothing but what is in hardware; with an exact window exactly when no plain frame is ahead |
| Failures.BufferLost | target_firmware/wlan/if_owl.c:1743-1794 | a run from attachment at whose end a buffer is nowhere |
| Leftover.NeverEnds | target_firmware/wlan/if_owl.c:713-724 | a run from attachment after which an identifier is paused for a teardown and nothing is in its hardware queue |
| Stall.TeardownGap | target_firmware/wlan/if_owl.c:1957-1994 | teardown widens the gap between the window's end and the next new number by the new frames it discards; a drain closes it |
| Stall.SendingClosesGap | target_firmware/wlan/if_owl.c:1594-1611 | as soon as the window has a member there is no gap, so only sessions of which nothing is sent add to it |
| Stall.NothingChosenIff | target_firmware/wlan/if_owl.c:1500-1516 | in a session with an empty window a scheduling decision takes no new frame if and only if the gap is 64 or more |
| Stall.WideGapSendsNothing | target_firmware/wlan/if_owl.c:1500-1516 | over every allowed run that does not end the session, such a session stays so and nothing of it is ever in hardware |
| Failures.StallReached | target_firmware/wlan/if_owl.c:1957-1994 | an allowed run from attachment that reaches it, with any pool of 26 buffers or more: three sessions queue 25 frames each behind a frame of another identifier and end with nothing sent |
| Scheduling.NoneStranded | target_firmware/wlan/if_owl.c:1286-1329 | over every run each identifier is paused only for a teardown or a BAR in hardware, and is paused, has nothing queued, or is on its own queue's list; it is there at most once, and exactly when marked scheduled |
| Scheduling.AttachedServed | target_firmware/wlan/if_owl.c:468-484 | attachment starts in such a state |
| Turns.ScheduleIs | target_firmware/wlan/if_owl.c:1299-1329 | a scheduling call dequeues its turns one after the other, a prefix of the list of which all but the last are paused, and serves the last unless it is paused too |
| Turns.ScheduleList | target_firmware/wlan/if_owl.c:1299-1329 | the list is then what the turns left of it, and at its end the identifier served, exactly if that is not paused and has frames left |
| Turns.ScheduleMoves | target_firmware/wlan/if_owl.c:1299-1329 | the list goes on where the turns of a scheduling call end, at most the one served back at its end, and no other list moves |
| Turns.ProcessResumes | target_firmware/wlan/if_owl.c:170-190 | a completion that resumes an identifier with frames queued is such a call, in the state with that identifier back on its list |
| Turns.TurnsInOrder | target_firmware/wlan/if_owl.c:1286-1329 | over every run the turns of a hardware queue are given first in, first out: the list at the start is a prefix of the turns given followed by the list at the end, and no turn is given beyond those the list accounts for, three joining it at most at an event |
| Turns.TurnComes | target_firmware/wlan/if_owl.c:1299-1329 | whatever happens between the calls, the identifier at position k has the (k + 1)-st turn, and by the (k + 1)-st scheduling call on its queue it has been dequeued, at the head of its list, in a state of the run |
| Queues.StepElsewhere | target_firmware/wlan/if_owl.c:651-701 | an event on one hardware queue changes no entry, no list and no identifier of the other three, in every state of every run |
| Queues.RunElsewhere | target_firmware/wlan/if_owl.c:651-701 | nor does a run of such events |
| Idle.ScheduleWorksIff | target_firmware/wlan/if_owl.c:1299-1329 | after a scheduling call hardware has work or nobody of the queue could send, unless that was not so before and the first identifier on the list that is not paused has nothing it may send |
| Idle.QuietWhen | target_firmware/wlan/if_owl.c:1500-1516 | with nothing in its hardware queue an identifier has nothing it may send exactly when its queue is empty or its session stalls, in every state of strict runs |
| Idle.WastedOn | target_firmware/wlan/if_owl.c:1299-1329 | so on an idle queue a call is wasted exactly when the first identifier that is not paused has an empty queue or a stalled session |
| Idle.StrictCause | target_firmware/wlan/if_owl.c:651-701 | in strict runs a completion leaves the queue idle with its call wasted exactly if hardware is then empty and the first identifier not paused is such a one |
| Idle.StepWorks | target_firmware/wlan/if_owl.c:651-701 | every other event keeps a queue working: frames from the host, teardowns, drains, other queues |
| Idle.IdleIsLeftIdle | target_firmware/wlan/if_owl.c:651-701 | after every allowed run from attachment a queue stands idle with somebody able to send only since a completion whose scheduling call was wasted, or a completion of a stopped queue |
| Idle.IdleLasts | target_firmware/wlan/if_owl.c:1331-1362 | it stays idle over every allowed run that sends no frame of the queue at once and throws away nothing of the one that could send |
| IdleRuns.IdleAfterEnd | target_firmware/wlan/if_owl.c:1957-1994 | a strict run from attachment that ends so: the call goes to an identifier whose session ended while it was listed |
| IdleRuns.IdleAfterStall | target_firmware/wlan/if_owl.c:1299-1329 | an allowed run from attachment that ends so: the call goes to a stalled session, which goes back to the end of the list |
| Driver.Transmitter.constructor | target_firmware/wlan/if_owl.c:468-484 | 64 identifiers and four queues, each with its own bitmap, stand for the attached state |
| Driver.Transmitter.FormAggr | target_firmware/wlan/if_owl.c:1500-1592 | the loop over the identifier's queue and bitmap takes exactly the specified prefix, with its length and status |
| Driver.Transmitter.TxqSchedule | target_firmware/wlan/if_owl.c:1299-1329 | the loop over the list of references is the scheduling decision specified |
| Driver.Transmitter.CompAggr | target_firmware/wlan/if_owl.c:1613-1699 | the in-place loop takes the chain apart as specified and returns its nbad |
| Driver.Transmitter.CompCleanup | target_firmware/wlan/if_owl.c:1743-1794 | the in-place loop, which stops when the count runs out, is the one specified |
| Driver.Transmitter.CleanQueue | target_firmware/wlan/if_owl.c:1957-1976 | the first loop frees every queued frame in order, resolving those retried in the bitmap |
| Driver.Transmitter.Cleanup | target_firmware/wlan/if_owl.c:1957-1994 | both in-place loops together are the teardown specified |
| Driver.Transmitter.DrainScheduled | target_firmware/wlan/if_ath.c:665-671 | every scheduled identifier is taken off its list and emptied |
| Driver.Transmitter.ProcessActive | target_firmware/wlan/if_owl.c:651-701 | the loop over an active queue is the run of its completions, each followed by a scheduling decision |
| Descriptors.SubmitChosen | target_firmware/wlan/if_owl.c:1407-1446 | what is handed to hardware is one plain frame, or an aggregate with every frame marked, all but the last announcing more, the total length on the first, and links ending in null; nothing but links, marks and lengths is written |
| Descriptors.LinkChosen | target_firmware/wlan/if_owl.c:1577-1584 | the linking loop joins each chosen buffer to the next and keeps each buffer's own last descriptor |
| Descriptors.HardwareVisits | target_firmware/wlan/if_owl.c:1407-1446 | following the links from the first descriptor visits exactly the chosen frames in order, and stops |
| Unchain.TxPool.RetrySubframe | target_firmware/wlan/if_owl.c:1796-1835 | the buffer, and the one it may exchange with the held one, do what is specified of the frame, and a frame to be retried ends in an independent buffer |
| Unchain.TxPool.CompFrames | target_firmware/wlan/if_owl.c:1671-1681 | the loop along the next pointers does what is specified of the frames of the chain, and no buffer is lost or doubled |
| Unchain.TxPool.CompAggr | target_firmware/wlan/if_owl.c:1613-1699 | exactly the frames whose fate is a retry come back, in chain order, each in a buffer whose last descriptor is its own and that no longer is part of an aggregate, even when the held buffer is an earlier one of the chain; so is the BAR's, which is the first frame given up; the rest is handed back |
| Unchain.RetriedCanBeSent | target_firmware/wlan/if_owl.c:1577-1584 | the buffers that come back meet what formation asks of the buffers it links |
| Unchain.Send | target_firmware/wlan/if_owl.c:1407-1446 | sending the buffers of the frames formation chooses, with its length and their delimiters, changes no frame; several are a chain of exactly these frames, ready to be taken apart, their length and the delimiters of each those of AggregateLayout and DelimitersFill |
| Unchain.SentIsChained | target_firmware/wlan/if_owl.c:1407-1446 | an aggregate as it was sent is such a chain |
| Airtime.LookupRate | target_firmware/wlan/if_owl.c:1451-1498 | no limit for a probe or a legacy rate, else the least table limit among the rates tried, cut by the host's limits |
| Airtime.LimitIs | target_firmware/wlan/if_owl.c:1451-1498 | that is the greatest length within the interface's and the peer's limit and, with coexistence, three eighths of 65535 and of the limit of every rate tried, else all of them |
| Airtime.DurationMonotone | target_firmware/wlan/if_owl.c:192-222 | a longer aggregate takes no less time at any row |
| Airtime.RowBound | target_firmware/wlan/ar5416Phy.c:60-244 | each row at its own limit takes at most 4004 us, and at most 4000 us if and only if it is not AR9271's row 38; exactly 4000 us where its limit is below 64K octets |
| RateRows.AirtimeIs | target_firmware/wlan/if_owl.c:192-222 | at every HT row of the three tables, the time of an aggregate is that of symbols for its octets and 22 bits more, of 4 or 3.6 us, with the data bits the row's MCS, width and streams give, after a preamble of 36 us or, with two streams, 40 us |
| Airtime.AirtimeBound | target_firmware/wlan/if_owl.c:1530-1557 | an aggregate of two or more frames takes at most 4004 us at every rate of its series that will be tried |
| RateRows.BlamesRowSent | target_firmware/wlan/ratectrl_11n_ln.c:973-986 | the row found from a series entry's base row and flags is the row the entry was made from, for every HT row of the three tables |
| RateList.SortValidRates | target_firmware/wlan/ratectrl_11n_ln.c:79-101 | the in-place bubble sort does the sweeps specified |
| RateList.SortOrders | target_firmware/wlan/ratectrl_11n_ln.c:79-101 | the sort makes the first n entries an ordered permutation of themselves and leaves the rest |
| RateList.SortedMeans | target_firmware/wlan/ratectrl_11n_ln.c:79-101 | in order of user rate on AR9271, of the rate itself on AR7010 |
| RateList.GetNext | target_firmware/wlan/ratectrl_11n_ln.c:125-141 | the search loop returns the entry after the first equal one |
| RateList.GetNextLower | target_firmware/wlan/ratectrl_11n_ln.c:144-157 | the search loop returns the entry before the first equal one after the head |
| RateList.IteratorsUndo | target_firmware/wlan/ratectrl_11n_ln.c:124-157 | on distinct entries y is next after x if and only if x is next below y |
| RateList.StepDownIs | target_firmware/wlan/ratectrl_11n_ln.c:586-614 | stepping down k times from position p ends at position p - k, or at the lowest rate |
| RateList.StepDownDescends | target_firmware/wlan/ratectrl_11n_ln.c:586-614 | stepping down never raises the sort key and never leaves the list, even with repeated entries |
| RateList.GetIndex | target_firmware/wlan/ratectrl_11n_ln.c:586-614 | the in-place loop is that stepping down, to the lowest rate when the minimum is asked for |
| RateControl.NewPerPercent | target_firmware/wlan/ratectrl_11n_ln.c:741-798 | the new estimate is a percentage, and the 8-bit stores on the way do not wrap |
| RateUpdate.EstimateMoves | target_firmware/wlan/ratectrl_11n_ln.c:741-798 | the new estimate for every kind of outcome: 30 more, or seven eighths of the old and an eighth of 100, of what the retries before a success count as, or of the share of attempts lost |
| RateControl.SmoothMono | target_firmware/wlan/ratectrl_11n_ln.c:877-894 | from estimates in order and one of them changed, the two passes restore the order |
| RateControl.UpdateInv | target_firmware/wlan/ratectrl_11n_ln.c:702-904 | an update keeps all estimates percentages and in order across neighbours of one kind, the highest rate allowed valid, and a pending probe valid |
| RateUpdate.ProbeEnds | target_firmware/wlan/ratectrl_11n_ln.c:805-873 | an outcome at the rate of the pending probe ends it; the highest rate allowed becomes that rate exactly if it got through at the first attempt with at most half its subframes bad; otherwise it stays, or, exactly if the rate used looks bad and is not above it, becomes the one below the rate used |
| RateUpdate.EstimatesAre | target_firmware/wlan/ratectrl_11n_ln.c:877-904 | every estimate after an update: the new one for the rate used, no higher one below it in its kind if it went down, no lower one above, the others as before, and all aged alike by an eighth when it is time |
| RateUpdate.HighestRises | target_firmware/wlan/ratectrl_11n_ln.c:805-873 | over every run whose list is in the order of the rates, the highest rate allowed is higher than it was only if a probe went well in between |
| RateUpdate.PendingProbe | target_firmware/wlan/ratectrl_11n_ln.c:505-522 | a pending probe was made by a choice earlier in the run, of the rate next above the highest allowed then, and no frame has been sent at it since |
| RateControl.RateChoice | target_firmware/wlan/ratectrl_11n_ln.c:423-543 | the rate chosen is valid; without a probe not above the highest allowed; with one the immediate successor of that, remembered as the probe |
| RateUpdate.ChoiceIs | target_firmware/wlan/ratectrl_11n_ln.c:501-543 | it is the rate the search finds, unless a probe is made: exactly when probes are allowed, the search finds the highest rate allowed, the list goes on after it, the interval has passed, and a frame has got through at once at the highest rate since the last probe |
| RateControl.SearchFinds | target_firmware/wlan/ratectrl_11n_ln.c:463-499 | for both sort keys: the rate at the one position that the scan reaches, that no earlier allowed rate exceeds in product, and that no later one equals before a rate that ends the scan |
| RateControl.ThruputIs | target_firmware/wlan/ratectrl_11n_ln.c:477-496 | the product is the user rate times the percentage of success, at most 88 |
| RateControl.FindsTopIff | target_firmware/wlan/ratectrl_11n_ln.c:463-499 | for both sort keys: that is the highest allowed rate with an estimate below 100% if and only if no live rate below, ahead of a rate that ends the scan, has a user rate above its product |
| RateControl.Ar9271FindsTop | target_firmware/wlan/ratectrl_11n_ln.c:463-499 | so always on AR9271, whose list is in order of user rate |
| RateTables.FasterIsBetter | target_firmware/wlan/ar5416Phy.c:124-244 | among the rows of an AR7010 table that one peer can be given, whatever its rates and abilities, a faster row has no lower user rate |
| RateTables.BetterIsFaster | target_firmware/wlan/ar5416Phy.c:53-121 | among those of the AR9271 table, a row with a higher user rate is not slower |
| RateTables.RunFindsTop | target_firmware/wlan/ratectrl_11n_ln.c:192-333 | so on all boards, in every state of every run after a rate set, the search returns the highest allowed rate whose error estimate is below 100% |
| RateTables.OnlyProbesRaiseHere | target_firmware/wlan/ratectrl_11n_ln.c:805-873 | and in every such run the highest rate allowed is higher than it was only if a probe went well in between |
| RateFailures.EarlyStop | target_firmware/wlan/ratectrl_11n_ln.c:474-475 | a run of four lost frames from a rate set over rows 6 to 10 of the AR9271 table, after which the search misses the rate of the greatest product |
| RateControl.SetRatesInv | target_firmware/wlan/ratectrl_11n_ln.c:396-420 | a rate set of four or more rates, with no probe pending, starts the invariant |
| RateUpdate.RateSetStarts | target_firmware/wlan/ratectrl_11n_ln.c:396-420 | every estimate is then zero, and the highest rate allowed is the fourth from the end of the rates found: with three above it if they were found in order |
| RateControl.RunInv | target_firmware/wlan/ratectrl_11n_ln.c:702-904 | the invariant holds in every state of every run of updates and choices after a rate set |
| RateSeries.SeriesTries | target_firmware/wlan/ratectrl_11n_ln.c:645-664 | total tries are numTries, or numTries + 1 - numTries/numRates with a probe and three rates or more, or 1 + numTries/numRates with a probe and fewer |
| RateSeries.OverrideTries | target_firmware/wlan/ratectrl_11n_ln.c:675-698 | the override of low MCS series moves no tries |
| RateSeries.SeriesDescends | target_firmware/wlan/ratectrl_11n_ln.c:629-664 | every entry is a valid rate, level with the one before or below it in the sort key |
| RateSeries.SeriesPositions | target_firmware/wlan/ratectrl_11n_ln.c:629-664 | on distinct entries each entry is exactly the step further down the list than the one before, or at its lowest; all but the first, and the one after a probe, use RTS; the tries are shared equally but for the last |
| RateSeries.OverrideIs | target_firmware/wlan/ratectrl_11n_ln.c:675-698 | a series of four that begins with MCS 2 on 40 MHz or MCS 3 on 20 MHz repeats its third rate, and one that begins with a low rate uses RTS from the start; both at 2.4 GHz only |
| RateSeries.OverrideDescends | target_firmware/wlan/ratectrl_11n_ln.c:675-698 | the override keeps that |
| RateSeries.ProbeThenMax | target_firmware/wlan/ratectrl_11n_ln.c:633-649 | on distinct entries a probe gets one try and is followed by the highest rate allowed |
| RateNode.Node.SibUpdate | target_firmware/wlan/ratectrl_11n_ln.c:396-420 | the arrays and fields after a rate set are those specified, sorted in place |
| RateNode.Node.Update | target_firmware/wlan/ratectrl_11n_ln.c:702-904 | the in-place update of estimates, probe and highest rate is the one specified |
| RateNode.Node.RateFind | target_firmware/wlan/ratectrl_11n_ln.c:423-543 | the in-place search and probe decision are those specified |
| RateNode.Node.FindSeries | target_firmware/wlan/ratectrl_11n_ln.c:616-699 | the series built step by step is the one specified |
| RxRing.Ring.constructor | target_firmware/wlan/if_ath.c:455-476 | after the start every descriptor is in the ring, all but the last linked and holding a buffer, the hardware pointer on the first |
| RxRing.Ring.ProcessTriggers | target_firmware/wlan/if_ath.c:324-453 | what is handed up is exactly the whole frames among the parts read, in the order the buffers were posted; the parts of an unfinished frame stay at the head of the ring; the scan stops before the last linked descriptor |
| RxRing.Ring.RxComplete | target_firmware/wlan/if_ath.c:285-312 | each returned buffer refills an idle descriptor, in order, which cannot fail; buffers beyond the idle descriptors go to no list |
| RxRing.TakeFirstMirrors | target_firmware/wlan/if_ath.c:403-436 | giving up the first descriptor's buffer keeps the ring invariant, with a buffer in the pool or without |
| RxRing.RefillGrows | target_firmware/wlan/if_ath.c:285-312 | refilling an idle descriptor keeps the ring invariant |
| RxRing.RingMirror | target_firmware/wlan/if_ath.c:240-283 | hardware's link chain followed by the held descriptor is the software list; every descriptor is on exactly one of the two lists, once; lost buffers never exceed what the pool had to spare |
| RxRing.CutUnique | target_firmware/wlan/if_ath.c:397-448 | there is only one way to cut the parts read into whole frames and an unfinished one, and the scan's is it |
| RxRing.CutIsCut | target_firmware/wlan/if_ath.c:397-448 | the scan's frames are whole, in order, and with the unfinished rest make up all parts |
| Tsf.GetTsf64 | target_firmware/wlan/ar5416_hw.c:280-295 | the value returned is the counter's at the first lower read around which the upper word held still; when there is none it joins halves of two values, and is a time that passed during the read if and only if the lower half did not fall from the one to the other |
| Tsf.AtMostTwoChanges | target_firmware/wlan/ar5416_hw.c:280-295 | at most two changes of the upper word leave such a read |
| Tsf.ThreeChangesTear | target_firmware/wlan/ar5416_hw.c:280-295 | three changes can give a time ahead of every value the counter showed |
| Tsf.NearUnique | target_firmware/wlan/if_ath.c:104-117 | at most one number within half a word of the clock ends in the stamp |
| Tsf.ExtendExact | target_firmware/wlan/if_ath.c:104-117 | the extension is the reception time whenever that is within half a word of the clock, and is itself within half a word unless the sum leaves 64 bits |
| Tsf.ExtendTsf | target_firmware/wlan/if_ath.c:104-117 | with the clock read included, a frame received before the read gets its exact time if the upper word changed at most twice |
| PacketNumber.HeaderRoundTrip | target_firmware/wlan/ieee80211_output.c:83-126 | decoding a written header gives back the 48-bit counter under either cipher; the key identifier bits are kept beside the extended IV bit; the third CCMP byte is zero, and the second TKIP byte is the first with bit 5 set and bit 7 clear |
| PacketNumber.PacketNumbersUnique | target_firmware/wlan/ieee80211_output.c:83-126 | in a run from reset, ciphers and keys mixed at will, two headers carry the same number if and only if a multiple of 2^48 lies between them; before that the numbers strictly increase |
| PacketNumber.HeadersDecode | target_firmware/wlan/ieee80211_output.c:83-126 | the header written i-th decodes to the counter advanced i + 1 times, across the 16-bit carry |
| PacketNumber.Node.Encap | target_firmware/wlan/ieee80211_output.c:57-138 | exactly the eight header bytes at the offset for QoS or mesh frames are written, from the counter just stepped; other key types change nothing |
| PacketNumber.EncapAll | target_firmware/wlan/ieee80211_output.c:57-138 | frames encapsulated one after the other carry, each at its offset, exactly the headers of such a run |

## Left out

- In `Driver` a frame in a queue is a value that names its buffer; `Unchain` has the buffers of one aggregate as heap
  objects, linked by pointers. The pointer form of the tail queues is not represented.
- Each 32-bit word of the bitmap is 32 booleans, and descriptor control words are fields, not masks.
- Runs.Allowed: enabling aggregation while a teardown goes on, when the old session's count and the new
  session's window would overlap, is outside the runs. So is a teardown that starts with a
  frame sent outside aggregation ahead of an aggregated one; Teardown.TeardownGoesWellIff says exactly what it spoils, and
  Growth.RunShape, Runs.DrainTerminates, Scheduling.NoneStranded, Turns.TurnsInOrder and Queues.StepElsewhere hold of
  those runs too.
- Teardown.QueueGoesWellIff: whether the other identifiers' completions are safe is theirs to say, each by this same condition.
- Outcomes.BarSafety: speaks of the moment a BAR is queued, not of a BAR still waiting while older entries complete.
- Aggregate.AggregateLayout: for frames whose length with its delimiter fits 16 bits; a longer one would wrap al_delta, as FormLaid says.
- Teardown with discard_all off, which no caller asks for, and re-creating a node in teardown.
- Descriptors.SubmitChosen: the length field of subframes after the first is left as it was, as in the source.
- Unchain.TxPool.CompAggr: one descriptor a buffer, as for a frame that is one DMA segment; putting the frames back on
  their queue is part of `Driver`.
- RateControl.RunInv: the loop of rcUpdate_11n over the series is a sequence of updates here, so its early
  return after a switch from 40 to 20 MHz is one of the runs.
- RateSeries.SeriesTries: numTries below 256, as the 8-bit tries field holds; every caller passes 10.
- Series entries name the row of the table instead of copying its columns; chain masks and STBC flags are left out.
- RateControl.SetRatesInv: the rates picked from the peer's rate set are an argument, at least four of them, as the
  source indexes the fourth from the end. RateTables.Installable says which rows of the tables they can be; their order
  before sorting is arbitrary.
- RxRing.Ring.ProcessTriggers: no purge of very long packets, always a free receive buffer record, and no restart of the ring
  after a failed start.
- Multicast frames in ath_lookup_rate, fragments, and the number of extra delimiters hardware may need.
- ath_tgt_send_mgt, beacon, CAB and UAPSD frames, statistics and status events: they add easy members.
- WMI command handlers, register access, DMA mapping, USB and PCI transport.
