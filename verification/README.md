# Verified model of the camera stack

A Dafny model of the parts of this repository that carry state through failure:
the IPU4 capture driver (buffer queues, stream start, stream handles, sub-device
routing, DMA memory, firmware queues, frequency constraints) and the user-space
bridge (camera controller, infrared capture engine, RAW10 decoder, frame protocol).
Each object that the source updates in place is a class with the same fields; its
methods are proved equal to value-level step functions or to a stated outcome, and
lemmas about those hold over every run.

Everything outside the code is arbitrary. A call to the firmware, a sensor, an
allocator, the media core or the operations table is answered by a `world`, a
function of the call number, or by an argument of the call, so a statement for every
world covers every pattern of failures. In the capture pipeline user space and the
firmware act between any two locked list operations: `Gap` plays the next batch of an
arbitrary finite script of events. No result waits for a quiet moment: each queue counts
what arrives on its incoming list (QBUF, parking) and what the firmware answers, and the
laws of the pipeline are exact in these counts.

What an operation returns is tied to what the world answered: a success says that its
calls were granted, a failure names one of its own calls that was refused, or the
condition on which it fails without one.

| file | models |
|---|---|
| Common.dfy | lists without an element, counting, machine word widths |
| CaptureLane.dfy | one buffer queue: its lists, and every locked operation on them |
| CaptureSets.dfy | taking, placing and feeding buffer sets, on values |
| CaptureFlush.dfy | flushing, recalling and returning buffers, on values |
| CapturePipeline.dfy | the pipeline object: stream start with verification and rollback, refeed, QBUF |
| Controller.dfy | the camera controller, step by step, on values |
| ControllerProofs.dfy | its invariants, histories and progress over every run |
| ControllerObject.dfy | the controller object, equal to those steps |
| Routing.dfy | route tables: checks, storage, read-back |
| IrCapture.dfy | the infrared capture engine |
| Raw10.dfy | the RAW10 decoder (packing of section 11.4.4 of MIPI CSI-2 v1.1) |
| FrameProtocol.dfy | the frame protocol, writer and reader |
| CaptureHelper.dfy | the capture helper from the engine through both pipes to the reader |
| FwCom.dfy | firmware token rings and their shared allocation |
| Dma.dfy | page allocation, mapping and release |
| Buttress.dfy | the cached minimum frequency |
| Streams.dfy | stream handles and sub-device start and stop |

Results where the code does less than its documentation or a neighbouring part
suggests, each proved with its exact condition:

- A token ring with size - 1 tokens outstanding is not protected: the next send is
  granted, unless wr = size - 1 and rd = 0, and loses every token. The queues rely on
  being sized so that they never fill (`FwCom.FullRingLoses`, `FwCom.PutAppends`).
- `sequence_gaps` counts the gap before a buffer that is then rejected, so frames and
  gaps can exceed the span; by exactly that (`IrCapture.GapsCoverSpan`), and by any
  amount (`IrCapture.GapsCountedTwice`).
- The Python reader refuses a 32-bit sequence wrap that the capture engine accepts
  (`FrameProtocol.AcceptsUnlessWrapped`, end to end `CaptureHelper.CaptureThrough`).
- A DMA release with a smaller size than was allocated keeps the remaining pages
  (`Dma.AllocFree`).
- The cached frequency is right exactly if the fused efficient frequency is within
  the maximum (`Buttress.CacheCorrect`).
- Controller shutdown forgets the active camera even when its capture did not stop
  (`ControllerProofs.ShutdownKeepsInvIffCaptureStopped`).
- Closing a camera restarts WirePlumber, but a restart that is refused is not tried
  again while no camera is asked for (`ControllerProofs.LeftStopped`); it is running
  again exactly if the restart went well (`ControllerProofs.ClosesUnwantedCamera`).

## Model

| member | source | states |
|---|---|---|
| CaptureLane.FindActive | linux-6.19.8/drivers/media/pci/intel/ipu-isys-queue.c:1522-1535 | a firmware address is looked up from the oldest active buffer on: the result is the last position holding it, or the length if none does |
| CaptureLane.ReactBalanced | linux-6.19.8/drivers/media/pci/intel/ipu-isys-queue.c:1500-1597 | a QBUF or a firmware response, parking included, keeps every buffer in exactly one place and the queueing/completion books balanced |
| CaptureLane.NextBalanced | linux-6.19.8/drivers/media/pci/intel/ipu-isys-queue.c:217-332 | so does every locked list operation of the driver: take, return, submit, complete, detach from active or incoming |
| CaptureLane.InterleavingBalanced | linux-6.19.8/drivers/media/pci/intel/ipu-isys-queue.c:931-1109 | the balance survives every interleaving of such steps over all queues |
| CaptureLane.OwnedOnce | linux-6.19.8/drivers/media/pci/intel/ipu-isys-queue.c:1166-1228 | after any interleaving a buffer is in exactly one of user space, incoming, active or a local list, once, and its completions lag its queueings by one exactly while the driver has it |
| CaptureLane.ReadyExactly | linux-6.19.8/drivers/media/pci/intel/ipu-isys-queue.c:1522-1596 | a response takes exactly the oldest active buffer at its address off the list: onto the newest end of incoming if it is corrupt and a start is being verified, else to user space, counted clean only without an error |
| CaptureLane.QueuedExactly | linux-6.19.8/drivers/media/pci/intel/ipu-isys-queue.c:1008-1016 | a buffer user space has goes to the newest end of incoming and nowhere else; what is for another queue, for an unknown address or not user space's to queue changes nothing |
| CaptureSets.ReactDrift | linux-6.19.8/drivers/media/pci/intel/ipu-isys-queue.c:1537-1557 | interference only adds buffers at the newest end of incoming and only removes active ones; incoming + active + held + completions of the firmware, less what user space queued, never change by it, and while verifying with no error but STR2MMIO every completion is clean |
| CaptureSets.ParkingConserves | linux-6.19.8/drivers/media/pci/intel/ipu-isys-queue.c:1537-1557 | over any stretch in which the driver completes nothing, incoming + active + held + clean deliveries, less what user space queued, is constant exactly if every completion of the firmware was clean; so it is while a start is verified and the only error among the events of that time is STR2MMIO |
| CaptureSets.PutBackUndoesTake | linux-6.19.8/drivers/media/pci/intel/ipu-isys-queue.c:411-415 | returning the oldest buffer to the tail restores the incoming list exactly |
| CaptureSets.PutBackStep | linux-6.19.8/drivers/media/pci/intel/ipu-isys-queue.c:411-415 | a failed attempt to get a set leaves every queue's old buffers in their old order, whatever was queued or parked meanwhile |
| CaptureSets.TakeStep | linux-6.19.8/drivers/media/pci/intel/ipu-isys-queue.c:351-381 | each taken buffer is its queue's oldest, and the set has one buffer per queue so far |
| CaptureSets.FeedingMore | linux-6.19.8/drivers/media/pci/intel/ipu-isys-queue.c:596-627 | handing over one more set keeps the per-queue order of submission and the exact per-queue state |
| CaptureSets.DrawnInOrder | linux-6.19.8/drivers/media/pci/intel/ipu-isys-queue.c:361-379 | the i-th submitted set takes the i-th oldest buffer of every queue, under any interference |
| CaptureSets.FlowExact | linux-6.19.8/drivers/media/pci/intel/ipu-isys-queue.c:351-381 | where nothing arrived a queue's incoming list is exactly its old one without the buffers taken, and where the firmware answered nothing its active list is exactly the old one after those submitted |
| CaptureSets.FeedingJoin | linux-6.19.8/drivers/media/pci/intel/ipu-isys-queue.c:591-628 | what two feedings in a row submit is one feeding of both lists of sets |
| CaptureSets.FedDry | linux-6.19.8/drivers/media/pci/intel/ipu-isys-queue.c:602-604 | whatever interferes, once a queue is found empty the sets handed over are exactly as many as the least any queue has had on offer, waiting or arrived |
| CaptureSets.OffersLeast | linux-6.19.8/drivers/media/pci/intel/ipu-isys-queue.c:340-381 | that number is never less than the shortest incoming list was long, and equal to it if nothing arrived |
| CaptureSets.AllFedCount | linux-6.19.8/drivers/media/pci/intel/ipu-isys-queue.c:591-628 | so a feeding that ran dry handed over at least the minimum over queues of the incoming lengths many sets, and exactly that many if no buffer was queued or parked, whatever the firmware completed |
| CaptureSets.StreamedAtMost | linux-6.19.8/drivers/media/pci/intel/ipu-isys-queue.c:840-879 | a stream is never fed more sets than the least any queue has had on offer |
| CaptureSets.StreamedAll | linux-6.19.8/drivers/media/pci/intel/ipu-isys-queue.c:760-928 | the set a stream is started with and those fed to it since are one feeding: the i-th takes the i-th oldest buffer of every queue |
| CaptureSets.FoundEmpty | linux-6.19.8/drivers/media/pci/intel/ipu-isys-queue.c:351-358 | a queue found empty while a set is taken was empty before: interference only adds to it |
| CaptureFlush.DetachStep | linux-6.19.8/drivers/media/pci/intel/ipu-isys-queue.c:316-324 | each active list is detached in its order, without the buffers the firmware answered first |
| CaptureFlush.FlushDone | linux-6.19.8/drivers/media/pci/intel/ipu-isys-queue.c:302-332 | a flush ends with every active list empty and every waiting buffer in its place; what it completes are active buffers, in queue and list order, all but as many as the firmware answered itself |
| CaptureFlush.FlushExact | linux-6.19.8/drivers/media/pci/intel/ipu-isys-queue.c:302-332 | if the firmware answered none of them, these are all the active buffers |
| CaptureFlush.RecallStep | linux-6.19.8/drivers/media/pci/intel/ipu-isys-queue.c:942-960 | searching one buffer of a failed set takes it off its active list if it is there and moves nothing else |
| CaptureFlush.SearchedExact | linux-6.19.8/drivers/media/pci/intel/ipu-isys-queue.c:942-960 | without an answer of the firmware meanwhile a buffer of a failed set is found exactly if it was active, and nothing else moves |
| CaptureFlush.RefusedSet | linux-6.19.8/drivers/media/pci/intel/ipu-isys-queue.c:1090-1101 | when a submission fails on a running pipeline the whole set, and only it, leaves the driver: each queue loses its oldest waiting buffer and no other, and active keeps the order of the rest, under any interference |
| CaptureFlush.GoneExact | linux-6.19.8/drivers/media/pci/intel/ipu-isys-queue.c:1090-1101 | without an answer of the firmware meanwhile the whole set is completed with the error and active is as before |
| CaptureFlush.RolledBack | linux-6.19.8/drivers/media/pci/intel/ipu-isys-queue.c:917-925 | after a rolled-back start every active list is empty; without the error flag the set not handed over is oldest on incoming again |
| CaptureFlush.UndoneFed | linux-6.19.8/drivers/media/pci/intel/ipu-isys-queue.c:893-928 | after a start that failed while it fed buffers, what still waits on each queue is what waited before and what arrived, without the oldest buffers, one for each set the start took |
| CaptureFlush.BufStarted | linux-6.19.8/drivers/media/pci/intel/ipu-isys-queue.c:1054-1060 | the same seen from the QBUF that began the start: the stream runs, fed with every complete set, oldest first, or nothing is active and exactly the sets taken are gone from the waiting buffers |
| CaptureFlush.ReturnedMore | linux-6.19.8/drivers/media/pci/intel/ipu-isys-queue.c:1174-1219 | giving back one more head buffer keeps the account: given back and still listed buffers hold the old lists in order, plus what arrived and less what the firmware answered |
| CaptureFlush.ReturnedExact | linux-6.19.8/drivers/media/pci/intel/ipu-isys-queue.c:1166-1228 | without arrivals and answers exactly the queue's buffers are given back, in list order |
| CapturePipeline.Pipeline.constructor | linux-6.19.8/drivers/media/pci/intel/ipu-isys-queue.c:1836-1860 | all buffers start with user space and nothing is detached |
| CapturePipeline.Pipeline.Gap | linux-6.19.8/drivers/media/pci/intel/ipu-isys-queue.c:1500-1597 | between two locked operations exactly the next batch of user and firmware events happens, on every queue and the clean-frame counter; the queues drift only as the interference lemmas allow |
| CapturePipeline.Pipeline.Deliver | linux-6.19.8/drivers/media/pci/intel/ipu-isys.c:1289-1302 | only an error-free PIN_DATA_READY counts as a clean frame; the response reaches exactly its pin's queue |
| CapturePipeline.Pipeline.BufferListQueue | linux-6.19.8/drivers/media/pci/intel/ipu-isys-queue.c:217-294 | a local list is emptied, in order, into incoming tails, active heads or completions with the given state; each buffer is completed exactly when that was asked |
| CapturePipeline.Pipeline.BufferListGet | linux-6.19.8/drivers/media/pci/intel/ipu-isys-queue.c:340-416 | either one buffer of every queue, the oldest each, or every queue as it was; it gets nothing only if some incoming list was empty, whatever interferes |
| CapturePipeline.Pipeline.SubmitNext | linux-6.19.8/drivers/media/pci/intel/ipu-isys-queue.c:598-627 | one turn of a submission loop: nothing only if a queue was empty; else it is the answers of the message pool and of the send, and nothing else, that decide between put off, refused and accepted, and each leaves an exact state |
| CapturePipeline.Pipeline.FeedAll | linux-6.19.8/drivers/media/pci/intel/ipu-isys-queue.c:840-879 | terminates under any interference; a success asked for nothing that was refused, a failure names a message or send of its own that was; on success it has handed over every complete set: at least the minimum over queues of the incoming lengths, exactly that many if nothing is queued or parked |
| CapturePipeline.Pipeline.StreamCaptureRefeed | linux-6.19.8/drivers/media/pci/intel/ipu-isys-queue.c:591-628 | the same for stream_capture_refeed; with no message the last set goes back to its exact place, and after a success no complete set waits but of buffers that came later |
| CapturePipeline.Pipeline.FlushFirmware | linux-6.19.8/drivers/media/pci/intel/ipu-isys-queue.c:302-332 | all active lists end empty; the buffers completed are active ones, once each, in queue and list order, with the given state, all but those the firmware answers meanwhile |
| CapturePipeline.Pipeline.BufferListActiveError | linux-6.19.8/drivers/media/pci/intel/ipu-isys-queue.c:931-983 | completes with ERROR exactly the buffers of the failed set that are still active when they are looked for, in the order of the set |
| CapturePipeline.Pipeline.Observe | linux-6.19.8/drivers/media/pci/intel/ipu-isys-queue.c:689-694 | a wait is 12 gaps, cut short only by a clean frame |
| CapturePipeline.Pipeline.Cycle | linux-6.19.8/drivers/media/pci/intel/ipu-isys-queue.c:705-741 | the sensor goes off and on again, and that succeeds exactly if both calls do |
| CapturePipeline.Pipeline.Bounce | linux-6.19.8/drivers/media/pci/intel/ipu-isys-queue.c:705-744 | a bounce is recorded with the time and the frame count at which it began, fails for the sensor exactly if the sensor refused, else only by message or send, and hands every complete parked set back to the firmware, whatever the firmware parks or answers meanwhile |
| CapturePipeline.Pipeline.BounceLoop | linux-6.19.8/drivers/media/pci/intel/ipu-isys-queue.c:681-747 | at most 30 bounces, each only after a wait of 12 gaps or more since the one before and no clean frame; success only when a clean frame came, a time-out only after all 30 and no clean frame, and any other end names a message, send or sensor call of its own that failed |
| CapturePipeline.Pipeline.VerifyStreamStart | linux-6.19.8/drivers/media/pci/intel/ipu-isys-queue.c:655-758 | success on a CSI-2 pipeline with external sensor means a clean frame came, a time-out 30 bounces and none, and any other end names a message, send or sensor call of its own that failed; parking is off at the end, a queue was found empty after parking stopped and only QBUF adds buffers since, so no complete set is stranded; while parking was on incoming + active + completions of the firmware, less what user space queued, was constant |
| CapturePipeline.Pipeline.RollBack | linux-6.19.8/drivers/media/pci/intel/ipu-isys-queue.c:893-928 | the failure exit: nothing active, nothing detached, every completion in the state the caller asked for |
| CapturePipeline.Pipeline.HandOver | linux-6.19.8/drivers/media/pci/intel/ipu-isys-video.c:1805-1846 | a stream start refused before the set was made active leaves it detached, one refused later does not |
| CapturePipeline.Pipeline.StreamStart | linux-6.19.8/drivers/media/pci/intel/ipu-isys-queue.c:760-928 | all or nothing: streaming exactly on success, success only after the clean-frame counter moved and with no call refused, at most 30 bounces, each after a full wait, parking off; a successful start has submitted its set and then, in queueing order, at least the minimum over queues of the incoming lengths many sets, and stranded none; a failed one names a call of its own that failed or has bounced 30 times, completes with one state only, leaves nothing active or detached, and of the waiting buffers is missing exactly the sets it took |
| CapturePipeline.Pipeline.CaptureSet | linux-6.19.8/drivers/media/pci/intel/ipu-isys-queue.c:1063-1104 | a set on a running pipeline is submitted, or put back without a message, or alone failed with ERROR, under any interference |
| CapturePipeline.Pipeline.BufQueue | linux-6.19.8/drivers/media/pci/intel/ipu-isys-queue.c:985-1109 | a QBUF only waits, starts the stream, or submits exactly one set, of the oldest buffers, which is kept, put back or failed as the message and the send come out. On a ready, stopped pipeline the start is not begun only if some queue was empty, with nothing changed; once begun it streams, fed with every complete set, or names a call that failed or 30 bounces, nothing is active and exactly the sets taken are gone. A running stream stays running |
| CapturePipeline.Pipeline.ReturnFirst | linux-6.19.8/drivers/media/pci/intel/ipu-isys-queue.c:1174-1219 | one buffer leaves the head of a list and is completed outside the lock |
| CapturePipeline.Pipeline.ReturnBuffers | linux-6.19.8/drivers/media/pci/intel/ipu-isys-queue.c:1166-1228 | gives back waiting then active buffers, in list order, those that arrive meanwhile among them, and asks for a reset exactly if it found the firmware still had some; what other calls have detached does not matter and stays detached |
| ControllerProofs.StartFillerLedger | cbridge/controller.c:119-145 | a filler start never overwrites a handle nor meets a live pipeline on its camera, and keeps the books; afterwards the camera has its filler, or a clock reading fell short of its retry time |
| ControllerProofs.StartCaptureLedger | cbridge/controller.c:197-258 | a capture start keeps starts = frees + live handles and the WirePlumber account on every exit; a success made its last three calls, stopping WirePlumber, the format query and the start, and all went well; a failure names a refused call, puts the retry off by the delay its failures so far call for, leaves the camera to its filler and gives WirePlumber back; WirePlumber still stopped from before is restarted first |
| ControllerProofs.TransitionLedger | cbridge/controller.c:273-301 | a transition keeps the books; closing a camera successfully leaves WirePlumber running, and nothing is started while it is still owed a restart; the old capture goes exactly if its stop is granted, its backoff starts over and its camera is left to its filler; a failure names a refused call, keeps the target pending and puts off the retry of the camera to be opened, or closed, by its delay |
| ControllerProofs.CaptureFailedLedger | cbridge/controller.c:303-317 | a dead producer is dropped exactly if its stop is granted; its retry is put off by its delay either way, and once dropped its camera is left to its filler and WirePlumber given back |
| ControllerProofs.TickLedger | cbridge/controller.c:349-408 | every tick keeps the books, under every pattern of failing operations; while no camera is active WirePlumber runs, unless it has refused to restart since it was stopped |
| ControllerProofs.TickCared | cbridge/controller.c:356-361 | after every tick each camera that is not active has its filler, or a clock reading fell short of its filler's retry time |
| ControllerProofs.DeadlineKept | cbridge/controller.c:67-78 | a tick leaves the retry time of a camera that is not active, or, once it is due, moves it at least 2000 ms ahead; a start that failed always does |
| ControllerProofs.RetriesSpaced | cbridge/controller.c:67-78 | over every run: after a start on a camera that failed, the next start on it comes at least 2000 ms later |
| ControllerProofs.FillersRun | cbridge/controller.c:356-361 | over every run: after a tick a camera that is not active has its filler, unless the filler's retry time is later than the tick |
| ControllerProofs.NewCared | cbridge/controller.c:342-345 | a new controller has a filler on each camera, or the start of it was tried and put off |
| ControllerProofs.LeftStopped | cbridge/controller.c:287-291 | a WirePlumber whose restart was refused stays stopped for as long as no camera is asked for: closing tries it once |
| ControllerProofs.RunConserves | cbridge/controller.c:103-258 | over every run: no start on a camera with a live handle, at most one capture, starts = frees + live handles, WirePlumber stops minus successful restarts is 0 or 1 and equals wireplumber_stopped |
| ControllerProofs.ShutdownKeepsInvIffCaptureStopped | cbridge/controller.c:410-439 | shutdown keeps the invariants exactly if its capture stop succeeded, because it clears the active camera either way |
| ControllerProofs.ShutdownReports | cbridge/controller.c:410-439 | shutdown reports success exactly if nothing it asked for was refused |
| ControllerProofs.TickCases | cbridge/controller.c:349-408 | a tick polls every filler, stops a dead one, starts a missing one, polls a live capture, and then either drops a dead producer or reads the mask and makes exactly the transition that is due: after 1500 ms of nothing asked for, or for a camera not streaming that is past its retry time and, unless it is only to be restarted, asked for over 450 ms; otherwise it changes only its clocks |
| ControllerProofs.RunHistory | cbridge/controller.c:374-407 | the candidate and idle timestamps always mark the first of an unbroken row of samples that all asked for that |
| ControllerProofs.HealthyCaptureStops | cbridge/controller.c:374-407 | a healthy streaming capture is stopped only after at least 450 ms of samples for the other camera, or at least 1500 ms of samples for none |
| ControllerProofs.CaptureStartsDebounced | cbridge/controller.c:260-407 | a start on a camera other than the active one follows at least 450 ms of samples that all requested it, and never precedes its retry time |
| ControllerProofs.ActiveAfterDebounce | cbridge/controller.c:374-407 | a camera is active only once the clock has passed 450 ms, so the idle mark 0 is never a reading at which a camera is active |
| ControllerProofs.OpensRequestedCamera | cbridge/controller.c:197-408 | progress: with succeeding operations and a constant request, every tick from max(t0+450, retry deadline) on ends STREAMING on the active camera if it is still wanted, else on the rear one if it is, else on the front one |
| ControllerProofs.ClosesUnwantedCamera | cbridge/controller.c:374-408 | progress: with no request and succeeding operations, every tick from t0+1500 on ends with no active camera, and WirePlumber is running, except exactly if at t0 no camera was active and it had been left stopped |
| ControllerProofs.BackoffDoublesUpToCap | cbridge/controller.c:52-65 | the n-th retry delay is 2000 ms doubled n times, at most 30000 ms |
| ControllerObject.CameraController.constructor | cbridge/controller.c:319-347 | a new controller tries both fillers, front first |
| ControllerObject.CameraController.StartFiller | cbridge/controller.c:119-145 | a camera that has its filler, or whose filler is not to be tried yet, is left alone; else the filler is started, or tried again exactly its delay after a clock reading |
| ControllerObject.CameraController.PollFiller | cbridge/controller.c:147-165 | a filler that polls well is left alone; a dead one is told to stop, kept only if it refuses, and its retry put off by exactly its delay |
| ControllerObject.CameraController.RestoreWireplumber | cbridge/controller.c:167-180 | WirePlumber runs afterwards exactly if it was not stopped or its restart was granted, and that is the result |
| ControllerObject.CameraController.StopCapture | cbridge/controller.c:182-195 | the capture goes exactly if there was none or its stop was granted, and that is the result; else its retry is put off |
| ControllerObject.CameraController.StartCapture | cbridge/controller.c:197-258 | does to the fields what the lemmas say of a start |
| ControllerObject.CameraController.Transition | cbridge/controller.c:273-301 | does to the fields what the lemmas say of a transition: a camera closed successfully leaves WirePlumber running, and no capture is started before an owed restart |
| ControllerObject.CameraController.CaptureFailed | cbridge/controller.c:303-317 | drops a dead producer as the lemmas say |
| ControllerObject.CameraController.Tick | cbridge/controller.c:349-408 | one tick of the fields equals the tick the run lemmas quantify over, keeps the books, and leaves every idle camera its filler or a retry time ahead |
| ControllerObject.CameraController.Shutdown | cbridge/controller.c:410-439 | from right books they stay right exactly if the capture stop succeeds; it reports success exactly if nothing was refused, and has then freed every pipeline it started |
| Routing.AllHit | linux-6.19.8/drivers/media/pci/intel/ipu-isys-subdev.c:650-681 | pigeonhole: n numbers below n are all of them |
| Routing.AcceptedIsPermutation | linux-6.19.8/drivers/media/pci/intel/ipu-isys-subdev.c:619-681 | an accepted table has exactly one route for every link of the topology and nothing else |
| Routing.AcceptableMeans | linux-6.19.8/drivers/media/pci/intel/ipu-isys-subdev.c:611-681 | a table is acceptable exactly if it has as many routes as the topology has links, each within its pads and their streams, no two for the same pads, each for a link, and each immutable link left as it is |
| Routing.StoredElsewhere | linux-6.19.8/drivers/media/pci/intel/ipu-isys-subdev.c:551-567 | storing a route disturbs the stored streams of no other link: the slots do not collide |
| Routing.FoldedShows | linux-6.19.8/drivers/media/pci/intel/ipu-isys-subdev.c:575-607 | after any prefix of a table a stream bit is set exactly if an active route of the prefix uses it |
| Routing.ReadsBack | linux-6.19.8/drivers/media/pci/intel/ipu-isys-subdev.c:826-841 | reading back an accepted table gives every route of it at its link, and only those |
| Routing.SyncedShown | linux-6.19.8/drivers/media/pci/intel/ipu-isys-subdev.c:575-607 | each pad's bitmap is exactly the set of active streams read back there |
| Routing.SyncedHolds | linux-6.19.8/drivers/media/pci/intel/ipu-isys-subdev.c:569-609 | storing an acceptable table leaves every route of it at its link, nothing else, and the bitmaps right |
| Routing.HandledImmutable | linux-6.19.8/drivers/media/pci/intel/ipu-isys-subdev.c:653-670 | a call, accepted or refused, leaves an immutable route active with its stream ids |
| Routing.ImmutableForever | linux-6.19.8/drivers/media/pci/intel/ipu-isys-subdev.c:611-681 | so does any sequence of calls |
| Routing.ShownForever | linux-6.19.8/drivers/media/pci/intel/ipu-isys-subdev.c:569-609 | the bitmaps agree with the stored routes after any sequence of calls |
| Routing.SnapshotRestores | linux-6.19.8/drivers/media/pci/intel/ipu-isys-subdev.c:812-841 | the table read back is accepted again exactly if the immutable links are active, and storing it changes nothing |
| Routing.Csi2Sound | linux-6.19.8/drivers/media/pci/intel/ipu-isys-csi2.c:795-845 | the CSI-2 receiver's initial routes satisfy all that the lemmas assume |
| Routing.BeSocSound | linux-6.19.8/drivers/media/pci/intel/ipu-isys-csi2-be-soc.c:355-377 | so do the back end's |
| Routing.Subdev.SyncRoutes | linux-6.19.8/drivers/media/pci/intel/ipu-isys-subdev.c:569-609 | stores the routes in order up to the first without a link; succeeds exactly if every route has one |
| Routing.Subdev.InitState | linux-6.19.8/drivers/media/pci/intel/ipu-isys-subdev.c:812-843 | builds exactly the stored table |
| Routing.Subdev.CheckOne | linux-6.19.8/drivers/media/pci/intel/ipu-isys-subdev.c:648-680 | a route is accepted exactly if its link exists, keeps an immutable link, and is not repeated |
| Routing.Subdev.SetRouting | linux-6.19.8/drivers/media/pci/intel/ipu-isys-subdev.c:611-681 | a table is answered with Ok exactly if it is acceptable, for a known state, and the environment agrees; an active one then reads back route by route at its links, with the bitmaps showing exactly its active streams; any other call changes nothing |
| IrCapture.StepAccounts | cbridge/ir-v4l2.c:844-894 | every call moves frames + gaps by its advance plus what it counts for a buffer it rejects after the sequence check |
| IrCapture.RunAccounts | cbridge/ir-v4l2.c:844-894 | the same over any run of calls, starts and stops |
| IrCapture.ExcessFree | cbridge/ir-v4l2.c:857-876 | the overcount is 0 exactly if no buffer with a gap before it was rejected after the sequence check |
| IrCapture.GapsCoverSpan | cbridge/ir-v4l2.c:844-894 | once a frame is delivered frames + gaps >= 1 + span, with equality exactly under that condition |
| IrCapture.GapsCountedTwice | cbridge/ir-v4l2.c:857-876 | a run of any loss where it does not: the numbers lost before an undecodable buffer are counted again with the next frame |
| IrCapture.SpanIsSequence | cbridge/ir-v4l2.c:844-846 | the span is the 32-bit sequence unwrapped, across any number of wraps |
| IrCapture.DeliveriesFollow | cbridge/ir-v4l2.c:622-638 | delivered frames have later and later time stamps and sequence steps in [1, 2^31-1] |
| IrCapture.DeliveriesLater | cbridge/ir-v4l2.c:622-638 | any two delivered frames are in time order |
| IrCapture.DeliveredExactly | cbridge/ir-v4l2.c:809-894 | a call delivers exactly if the engine streams and the buffer has no error flag, a monotonic time stamp that is not zero and later than the last, one plane of a buffer it owns with more bytes used than its offset and no more than its size, a 32-bit sequence step in [1, 2^31-1], decodes, and can be requeued |
| IrCapture.JudgeMeans | cbridge/ir-v4l2.c:809-894 | the first of the checks, in their order, that a buffer fails is the one counted, and no other |
| IrCapture.DiscardedExactly | cbridge/ir-v4l2.c:897-943 | a call discards exactly if the policy is on, the buffer's only fault is the error flag, it is requeued, and fewer than 5 discards and less than 2 s of them came before since the last frame |
| IrCapture.OnlyErrorFlag | cbridge/ir-v4l2.c:815-816 | the reasons of a refusal are the error flag alone exactly if nothing else about the buffer's flags, plane and time stamp is wrong |
| IrCapture.CallCounts | cbridge/ir-v4l2.c:714-943 | what one call counts and the error it leaves, for every way it can end: a frame, a discard, a poll or dequeue failure, the limit of discards, and for a rejected buffer the first check it failed, unless it could not be requeued |
| IrCapture.TimeoutExactly | cbridge/ir-v4l2.c:654-668 | a wait that brings nothing fails exactly if the policy is on and 5 discards or 2 s of them have passed, and counts that; else it is a timeout |
| IrCapture.ErrorsAlwaysAdd | cbridge/ir-v4l2.c:828-898 | rejected = metadata + timestamp + sequence + decode errors after every call |
| IrCapture.DiscardPolicyBounds | cbridge/ir-v4l2.c:640-652 | between frames at most 5 calls discard, all within 2 s of the first, on a nonzero clock that never goes back |
| IrCapture.RowEnds | cbridge/ir-v4l2.c:885-894 | a delivered frame and a start both begin a new row of discards |
| IrCapture.BuffersConserved | cbridge/ir-v4l2.c:881-918 | kernel-queued buffers + requeue errors + buffers that could not be requeued stay the same if DQBUF names queued buffers |
| IrCapture.Engine.StartStream | cbridge/ir-v4l2.c:578-620 | queues every buffer and streams, or does not; a new row of discards begins either way, and the next frame has none before it |
| IrCapture.Engine.StopStream | cbridge/ir-v4l2.c:945-963 | the engine streams afterwards exactly if STREAMOFF failed, and says so |
| IrCapture.Engine.HandleTimeout | cbridge/ir-v4l2.c:654-668 | a timeout is reported as such or as the discard limit |
| IrCapture.Engine.Check | cbridge/ir-v4l2.c:828-876 | the checks in their order; the gap is counted before the plane and decode checks |
| IrCapture.Engine.RequeueFail | cbridge/ir-v4l2.c:897-943 | the exit of a rejected buffer: requeue, discard or failure |
| IrCapture.Engine.NextFrame | cbridge/ir-v4l2.c:714-943 | one call on the fields equals the call the lemmas are about: errors still add up, a delivered frame follows the one before, frames + gaps move by the accounting law |
| Raw10.RequiredExact | cbridge/ir-v4l2.c:674-676 | the 64-bit size of the read range does not wrap once the stride holds a line |
| Raw10.AcceptsExactly | cbridge/ir-v4l2.c:678-685 | for buffers below 2^63 bytes the argument test accepts exactly the geometries whose reads and writes are in bounds |
| Raw10.TopBits | cbridge/ir-v4l2.c:703-706 | output is the top eight bits of the ten |
| Raw10.UnpackPack | cbridge/ir-capture-test.c:13-20 | unpacking the decoder's way undoes packing, for all four pixels of a group |
| Raw10.DecodesPacked | cbridge/ir-v4l2.c:696-710 | decoding packed pixels yields px >> 2 and 0x80 at every place of a decoded row |
| Raw10.UnpackGroup | cbridge/ir-v4l2.c:700-704 | the four pixels of a group from its five bytes |
| Raw10.DecodeGroup | cbridge/ir-v4l2.c:702-708 | writes eight output bytes and no others |
| Raw10.DecodeLine | cbridge/ir-v4l2.c:697-709 | a line's output, pixel by pixel, and nothing outside it |
| Raw10.Decode | cbridge/ir-v4l2.c:670-712 | all lines up to the first bad header are decoded, later output is untouched; success exactly if arguments and all headers are good |
| FrameProtocol.LeRoundTrip | cbridge/auth-capture-helper.c:94-106 | little-endian bytes give back the number |
| FrameProtocol.LeFour | cbridge/auth-capture-helper.c:94-100 | the least byte of a number comes first |
| FrameProtocol.HeaderRoundTrip | cbridge/auth-capture-helper.c:114-121 | every header field is read back from where it was put |
| FrameProtocol.HeaderSlices | cbridge/auth-capture-helper.c:111-121 | the magic and the seven fields of a header are at bytes 0, 8, 12, 16, 20, 24, 28 and 36 |
| FrameProtocol.GoodHeaderInverse | scripts/ir/sp7_ir_protocol.py:165-168 | only an encoded header passes the reader's check |
| FrameProtocol.AcceptsUnlessWrapped | scripts/ir/sp7_ir_protocol.py:172-174 | of two frames the engine may deliver in a row, the reader's tuple order accepts the second exactly if the sequence did not wrap |
| FrameProtocol.WrapRefused | scripts/ir/sp7_ir_protocol.py:172-174 | a concrete wrap the capture engine accepts and the reader refuses |
| FrameProtocol.IncreasingUnlessWrapped | scripts/ir/sp7_ir_protocol.py:172-174 | of any frames that follow each other, the reader takes each for newer exactly if none wrapped |
| FrameProtocol.EngineToReader | scripts/ir/sp7_ir_protocol.py:172-174 | of any engine run, the reader takes the delivered frames for newer and newer exactly if none wrapped |
| FrameProtocol.PutU32 | cbridge/auth-capture-helper.c:94-100 | four little-endian bytes, and no other byte changes |
| FrameProtocol.PutU64 | cbridge/auth-capture-helper.c:102-106 | eight little-endian bytes, and no other byte changes |
| FrameProtocol.MakeHeader | cbridge/auth-capture-helper.c:111-121 | the 44 header bytes |
| FrameProtocol.Writer.WriteAll | cbridge/auth-capture-helper.c:74-92 | writes all the data, if there is room, or a prefix of it, in order, however the writes are split; forward_bytes is the same loop (lines 269-295) |
| FrameProtocol.Writer.WriteFrame | cbridge/auth-capture-helper.c:108-131 | appends header and every other YUYV byte, byte by byte, or a prefix of that |
| FrameProtocol.Session.ReadExact | scripts/ir/sp7_ir_protocol.py:122-147 | the next bytes however split; end and truncation exactly when the stream is short; enough reads before the deadline never come late |
| FrameProtocol.Session.ReadLuma | scripts/ir/sp7_ir_protocol.py:157-179 | takes exactly one encoded frame off the stream, at most 2,000,000,000 ns old and newer than the last; refuses a whole encoded frame only if it is stale or not newer |
| FrameProtocol.Session.CaptureFrames | scripts/ir/sp7_ir_protocol.py:201-218 | round trip: a stream of encoded frames is read back exactly, if and only if each is at most 2,000,000,000 ns old when read and newer than the one before |
| FrameProtocol.StreamGrows | cbridge/auth-capture-helper.c:122-124 | writing one frame more appends its encoding to the stream |
| CaptureHelper.ShotsAreDeliveries | cbridge/auth-capture-helper.c:185-210 | the frames of a run with their pictures carry exactly the stamps the engine delivered |
| CaptureHelper.ShotsIncrease | scripts/ir/sp7_ir_protocol.py:172-174 | of the first frames of any run, the reader takes each for newer exactly if the sequence did not wrap among them |
| CaptureHelper.Emit | cbridge/auth-capture-helper.c:134-140 | a delivered frame goes out exactly if it is at most 2,000,000,000 ns old on a running clock, and then whole or as a prefix |
| CaptureHelper.Work | cbridge/auth-capture-helper.c:169-230 | the worker's output is exactly the encodings of the first frames the engine delivers, in order, ending inside the next one only if the output closed; it goes on until enough are out, a frame is stale, the capture fails or the output closes |
| CaptureHelper.Worker | cbridge/auth-capture-helper.c:169-230 | the worker exits well exactly if the capture could be stopped and as many frames went out as were asked for, or none were asked for and the output stayed open; the capture is stopped however the loop ended |
| CaptureHelper.Forward | cbridge/auth-capture-helper.c:339-400 | the supervisor forwards the bytes of the pipe in order however they are read and written: all of them if there is room and time, and otherwise a prefix |
| CaptureHelper.CaptureThrough | cbridge/auth-capture-helper.c:169-400 | end to end: the reader returns exactly the requested frames of the engine, and does so, given time, if and only if each is fresh when read, the sequence number did not wrap among them, the capture could be stopped, and the supervisor saw the end before its deadline; the helper sends them if the engine delivers as many, none late, and there is room and time |
| FwCom.ReceiveRefusesEmpty | linux-6.19.8/drivers/media/pci/intel/ipu-fw-com.c:434-457 | receive is refused exactly on an empty ring |
| FwCom.SendRefusesOnce | linux-6.19.8/drivers/media/pci/intel/ipu-fw-com.c:392-409 | send is refused exactly at wr = size-1, rd = 0, for every ring size below 2^32 |
| FwCom.PutAppends | linux-6.19.8/drivers/media/pci/intel/ipu-fw-com.c:417-431 | a put appends exactly if fewer than size-1 tokens are outstanding, and otherwise empties the ring |
| FwCom.FullRingLoses | linux-6.19.8/drivers/media/pci/intel/ipu-fw-com.c:148-152 | at size-1 outstanding tokens a send is still granted, except in the one refusing state, and loses them all |
| FwCom.StepFifo | linux-6.19.8/drivers/media/pci/intel/ipu-fw-com.c:385-468 | each access of either end keeps the ring a FIFO, and the sizing rule means a producer is never refused |
| FwCom.InterleavingFifo | linux-6.19.8/drivers/media/pci/intel/ipu-fw-com.c:385-468 | so does every interleaving of host and firmware steps |
| FwCom.ReceivedInOrder | linux-6.19.8/drivers/media/pci/intel/ipu-isys.h:30-34 | nothing is lost, duplicated or reordered: received is a prefix of sent and the rest is in the ring |
| FwCom.SlotsDisjoint | linux-6.19.8/drivers/media/pci/intel/ipu-fw-com.c:170-196 | no byte is in two token slots of any queues |
| FwCom.TokensApart | linux-6.19.8/drivers/media/pci/intel/ipu-fw-com.c:392-457 | a host address lies in at most one token of one queue |
| FwCom.SlotsFill | linux-6.19.8/drivers/media/pci/intel/ipu-fw-com.c:224-300 | every byte after the private data up to the end is in a token slot |
| FwCom.PartsInOrder | linux-6.19.8/drivers/media/pci/intel/ipu-fw-com.c:261-281 | header, input table, output table, private data and token slots share no byte and lie inside the allocation; the slots begin at the private data rounded up by less than 8 bytes, and end with it |
| FwCom.QueuesAgree | linux-6.19.8/drivers/media/pci/intel/ipu-fw-com.c:182-195 | host and device offsets of a queue agree and all index registers are distinct |
| FwCom.SizeOf | linux-6.19.8/drivers/media/pci/intel/ipu-fw-com.c:236-242 | the sum of the ring sizes modulo 2^32 |
| FwCom.SizeAll | linux-6.19.8/drivers/media/pci/intel/ipu-fw-com.c:227-246 | the allocated size modulo 2^32: it covers everything exactly if the sizes add up below 2^32 |
| FwCom.Cursor.QueueInit | linux-6.19.8/drivers/media/pci/intel/ipu-fw-com.c:176-196 | a descriptor at the cursors, which advance by the ring and by two registers |
| FwCom.Prepare | linux-6.19.8/drivers/media/pci/intel/ipu-fw-com.c:198-300 | every queue is where the layout says, for host and device; the output table follows the input table of 32 bytes a queue, the private data the output table |
| FwCom.PrepareContext | linux-6.19.8/drivers/media/pci/intel/ipu-fw-com.c:198-300 | a context over a prepared allocation has its queues where the layout says and no index register twice, as every access requires |
| FwCom.Context.SendGetToken | linux-6.19.8/drivers/media/pci/intel/ipu-fw-com.c:392-414 | the slot at the write index, if granted |
| FwCom.Context.SendPutToken | linux-6.19.8/drivers/media/pci/intel/ipu-fw-com.c:417-431 | moves this queue's write index and no other queue's indices |
| FwCom.Context.ReceiveGetToken | linux-6.19.8/drivers/media/pci/intel/ipu-fw-com.c:434-457 | the slot at the read index, if there is a token |
| FwCom.Context.ReceivePutToken | linux-6.19.8/drivers/media/pci/intel/ipu-fw-com.c:460-468 | moves this queue's read index and no other queue's indices |
| Dma.BinaryChunks | linux-6.19.8/drivers/media/pci/intel/ipu-dma.c:104-123 | without refusals the chunks are the binary digits of the size, largest first |
| Dma.AllocFree | linux-6.19.8/drivers/media/pci/intel/ipu-dma.c:262-313 | alloc then free is the identity exactly if the freed size covers as many pages; a smaller size leaves exactly the rest of the pages taken |
| Dma.AddedCoherent | linux-6.19.8/drivers/media/pci/intel/ipu-dma.c:186-260 | an allocation keeps every live range mapped page by page to pages of its own, and nothing else mapped |
| Dma.FreedCoherent | linux-6.19.8/drivers/media/pci/intel/ipu-dma.c:262-313 | so does a release, with any size and address |
| Dma.FreedExactly | linux-6.19.8/drivers/media/pci/intel/ipu-dma.c:262-313 | a release by any address inside an allocation removes that allocation, its range and its mappings, returns as many of its first pages as the size covers, and touches no other; by any other address it does nothing |
| Dma.Domain.AllocChunk | linux-6.19.8/drivers/media/pci/intel/ipu-dma.c:105-111 | tries the highest order that fits and then every lower one, each only after the one before was refused, and fails only if a single page is |
| Dma.Domain.AllocBuffer | linux-6.19.8/drivers/media/pci/intel/ipu-dma.c:85-135 | count distinct pages nobody had, in greedy chunks that add up, or none taken and a call of its own that was refused |
| Dma.Domain.FreeBuffer | linux-6.19.8/drivers/media/pci/intel/ipu-dma.c:137-158 | returns exactly the first pages of the list |
| Dma.Domain.MapAndRecord | linux-6.19.8/drivers/media/pci/intel/ipu-dma.c:212-255 | every device page mapped and the allocation recorded, with every call granted, or the page table and the list as before and a refused call, unless there is nothing to map |
| Dma.Domain.Alloc | linux-6.19.8/drivers/media/pci/intel/ipu-dma.c:186-260 | transactional: on failure at any point the page table, the ranges, reserved first and given back, the list and the pages in use are exactly as before, and a call of its own was refused, the range was occupied or the size is zero; on success the range is the one offered and the pages come in greedy chunks that add up |
| Dma.Domain.FindVmaByIova | linux-6.19.8/drivers/media/pci/intel/ipu-dma.c:30-41 | the newest allocation that holds the address |
| Dma.Domain.Release | linux-6.19.8/drivers/media/pci/intel/ipu-dma.c:262-313 | the mapping, the range and the sized part of the pages of that allocation go, nothing else |
| Buttress.ApplyAgrees | linux-6.19.8/drivers/media/pci/intel/ipu-buttress.c:662-702 | one incremental update leaves the cached minimum what a full recomputation gives |
| Buttress.CacheCorrect | linux-6.19.8/drivers/media/pci/intel/ipu-buttress.c:1263 | over every sequence of changes the cache is right if and only if efficient <= max |
| Buttress.OrderIrrelevant | linux-6.19.8/drivers/media/pci/intel/ipu-buttress.c:662-702 | the cached minimum depends only on which constraints there are, not on their history |
| Buttress.AgreesMeans | linux-6.19.8/drivers/media/pci/intel/ipu-buttress.c:662-702 | a right cache is within the fused bounds, meets every constraint as far as the maximum lets it, and is no higher than that |
| Buttress.Controls.AddConstraint | linux-6.19.8/drivers/media/pci/intel/ipu-buttress.c:662-677 | the new constraint heads the list; a minimum that met the others meets it too, and the ratio follows the minimum |
| Buttress.Controls.RemoveConstraint | linux-6.19.8/drivers/media/pci/intel/ipu-buttress.c:680-702 | exactly that constraint leaves the list; the minimum still meets the others and is no higher than they ask, and the ratio follows it |
| Buttress.Controls.FindLargest | linux-6.19.8/drivers/media/pci/intel/ipu-buttress.c:692-694 | the largest remaining constraint |
| Streams.StartedSound | linux-6.19.8/drivers/media/pci/intel/ipu-isys-video.c:960-980 | a start takes a free handle for exactly this pipeline and counts it |
| Streams.StoppedSound | linux-6.19.8/drivers/media/pci/intel/ipu-isys-video.c:982-992 | a stop frees it and uncounts it |
| Streams.StopUndoesStart | linux-6.19.8/drivers/media/pci/intel/ipu-isys-video.c:1967-1971 | a stop restores the state before the start |
| Streams.FreeWhileFewer | linux-6.19.8/drivers/media/pci/intel/ipu-isys-video.c:967-976 | a handle is free exactly while fewer than 8 streams are open |
| Streams.RunSound | linux-6.19.8/drivers/media/pci/intel/ipu-isys-video.c:942-992 | over any starts and stops, failed ones included, stream_opened is the number of occupied handles, at most 8 |
| Streams.HandlesUnshared | linux-6.19.8/drivers/media/pci/intel/ipu-isys-video.c:942-992 | no handle is shared and no pipeline holds two |
| Streams.StoppedOnce | linux-6.19.8/drivers/media/pci/intel/ipu-isys-video.c:2448-2455 | a failed start tells each sub-device it enabled to stop exactly once, and no other, the refusing one included |
| Streams.StartAnswers | linux-6.19.8/drivers/media/pci/intel/ipu-isys-video.c:2252-2465 | a start goes well exactly if a handle was free and no call it made was refused; an unsupported sub-device call is no refusal |
| Streams.Isys.GetHandle | linux-6.19.8/drivers/media/pci/intel/ipu-isys-video.c:960-980 | the first free handle, or none |
| Streams.Isys.StartFirmware | linux-6.19.8/drivers/media/pci/intel/ipu-isys-video.c:1639-1911 | a handle and an open, begun stream with every call granted; or neither, and a call of its own was refused or no handle was free; a failed close asks for a reset |
| Streams.Isys.CloseFirmware | linux-6.19.8/drivers/media/pci/intel/ipu-isys-video.c:1973-2014 | the handle is given up whatever the firmware answers, and a failed close asks for a reset |
| Streams.Isys.EnableAll | linux-6.19.8/drivers/media/pci/intel/ipu-isys-video.c:2306-2334 | sub-devices are enabled in order up to the first that refuses, and that decides the result |
| Streams.Isys.DisableEach | linux-6.19.8/drivers/media/pci/intel/ipu-isys-video.c:2448-2455 | exactly the enabled ones are told to stop, once each, in walk order |
| Streams.Isys.StartStreaming | linux-6.19.8/drivers/media/pci/intel/ipu-isys-video.c:2252-2465 | succeeds exactly if a handle was free and no call was refused, and then the pipeline holds a handle; a failed start releases all it took and undoes its calls, and fails only for a refused call or 8 open streams; a reset is asked for exactly if a close, a halt or a sensor stop failed |
| Streams.Isys.StopStreaming | linux-6.19.8/drivers/media/pci/intel/ipu-isys-video.c:2287-2424 | every sub-device is told to stop once and the handle is given up, whatever fails; it succeeds exactly if nothing did |

## Left out

- Interlaced streams, short-packet buffers and media requests: requests are disabled in ipu-isys-queue.c, and both only multiply cases.
- vb2 start_streaming and stop_streaming around the pipeline object: media framework calls between operations that are modelled.
- Format propagation, selections and the per-pad format caches of ipu-isys-subdev.c: they do not touch routes; v4l2_subdev_routing_validate and v4l2_subdev_set_routing_with_fmt are answers of the environment.
- Media graph discovery, ioctl format negotiation, mmap, logging and the message texts of cbridge/ir-v4l2.c.
- media-backend.c, prototype.c and process supervision: present only as the operations the controller calls.
- Kernel helpers not in this repository (list, bitmap, iova, vmap, page allocator internals) are not part of this model beyond their results.
- CapturePipeline.Pipeline.StreamStart: the clean-frame counter is unbounded, so 2^32 clean frames within one verification are not modelled.
- CapturePipeline.Pipeline.ReturnBuffers: what other queues' driver calls do while it runs is not played; they see interference only.
- CapturePipeline.Pipeline.VerifyStreamStart: a wait is one gap per tick, not 50 ms of time; receiver error reports during bounces are only logged by the source and are not modelled.
- CapturePipeline.Pipeline.HandOver: the start of the firmware stream is one answer here; its steps are in Streams.
- CapturePipeline.Pipeline.FeedAll: one loop stands for the two equal loops of stream start and refeed.
- ControllerProofs.OpensRequestedCamera: retry deadlines are unbounded numbers, the 64-bit wrap of a deadline is not modelled.
- ControllerProofs.HealthyCaptureStops: times are those of the clock reading a tick works with, taken before its fillers are tended.
- IrCapture.Engine.NextFrame: whether a frame decodes is an answer here; the decoder itself is Raw10.Decode.
- IrCapture.BuffersConserved: speaks of runs of calls between a start and the next stop, where the kernel's queue is not emptied.
- IrCapture.GapsCoverSpan: counters are unbounded; the 64-bit wrap of statistics is not modelled.
- Raw10.AcceptsExactly: assumes a buffer smaller than half the 64-bit address space, as any object in memory is.
- FrameProtocol.Writer.WriteAll: stands for write_all and forward_bytes, whose loops differ only in how the wait can end.
- FrameProtocol.Session.CaptureFrames: helper start, helper exit status and release are one answer.
- CaptureHelper.CaptureThrough: the three processes run one after the other, each on what the one before wrote; bytes in a pipe do not change, so only when a deadline strikes depends on their overlap. Whether the supervisor sees the end of the pipe and of the worker before its deadline is an argument. Signals and the lock file are left out.
- FwCom.Prepare: assumes sizes and addresses that do not wrap; what happens to the allocated size when they do is stated by FwCom.SizeAll.
- FwCom.InterleavingFifo: memory is sequentially consistent; cache flushes are not modelled.
- Dma.Domain.Alloc: sizes are counted in whole pages, without the int truncation of page counts of 2^31 and more; ipu_dma_map_sg, mmap and cache maintenance are left out.
- Dma.Domain.Release: the separate lookup of the range by address finds an allocation exactly when the list search does, and is not repeated.
- Buttress.Controls.AddConstraint: the register write behind a changed ratio is left out, as are the IPC handshake and authentication, whose other side is not visible.
- Streams.Isys.StartFirmware: the contents of the firmware configuration messages are left out.
- Streams.Isys.StartStreaming: whether the pipeline owns or completes its CSI-2 stream is an argument; skew calibration is left out.
- Howdy scripts, register comparison, ov5693.c, ipu-cpd.c, ipu-bridge.c, ipu-bus.c and the test pattern generator: only easy members or plumbing.
