# A verified model of the asynchronous core of Sane C++ Libraries

This project models, in Dafny 4.11, the parts of the library in which state changes hands between callbacks, loops
and threads, and proves what every run of them keeps.

* **Async Streams**: one pipeline with a source, any number of distinct sinks and a pool of reference-counted buffers.
  `StreamModel` has every operation as a function on the state of the whole pipeline; `StreamInvariant` to
  `StreamReads` prove the inductive invariant, `StreamReading` that reads go on, `StreamClosing` that the source is
  closed, `StreamOperations` what each operation does in every state; `StreamTheorems` and `StreamLimits` state what
  holds of all runs; `AsyncStreams` has the classes, updated in place, each method proved equal to its function.
  `CircularQueue` is the ring that the streams use, `BufferViews` the child views of the pool.
* **Async event loop**: `EventLoopModel` has the request lifecycle, the counters and the sequences, with the kernel
  and the callers as environment; `EventLoopInvariant` to `EventLoopDispatch` prove the invariant, `EventLoopTheorems`
  states what holds of all runs and exactly where it fails, `EventLoopProgress` that no request of a sequence is
  forgotten, `EventLoopShutdown` that closing comes to an end, `EventLoopLife` and `EventLoopQueues` what each step
  makes of the requests and of the queues; `Async` is the class, whose runs and whose `close` end as the theorems say.
  `Timers`, `WakeUps` and `Monitor` are the ordered timers, the coalescing wake-ups and the handshake with the polling
  thread.
* **Skynet fork/join benchmark**: `SkynetModel` to `SkynetTheorems`, for every depth and interleaving; `Skynet` has
  its arithmetic, its ready queue and its loops.
* **Fiber I/O handshake**: `FiberHandshake`, `FiberInvariant`, `FiberTheorems`, `FiberOutcomes`, and `CommandRing`.
* **Signal handlers and stack growth**: `HandlerLifecycle` and `StackGrowth`.
* **Bootstrap incremental build**: `Bootstrap`, and `Dependencies` for the dependency files it reads.

Concurrent parts are state machines whose steps are the atomic actions of the program; a run is any sequence of such
steps, and the main results are about all of them. Where the source changes fields step by step there is a class,
and each of its methods computes the function that the theorems speak of.

## What the proofs found

* A ring of size one passes `init`, but holds nothing: a pipeline with such a sink stops for ever at the first
  buffer. Back-pressure cannot deadlock exactly when every sink's queue has room (`StreamLimits.RoomIsNeeded`).
* The release assertion in `afterSinkEnd` fails when a sink finishes its last write after the end while another has
  already stopped writing. Some run reaches it exactly when there are two or more sinks
  (`StreamLimits.ListenerAssertion`, `StreamLimits.ListenerReachable`).
* A view of a view is checked against the extent of the root, not of its parent: it stays within its parent exactly
  when the slice asked for does (`BufferViews.NestedWithin`).
* Stopping a request that still waits in a sequence, or stopping a request from its own error callback after its
  staging has failed, makes the number of submissions wrong; nothing else does (`EventLoopTheorems.StopExact`).
* An error callback may start any request but its own (`EventLoopTheorems.RestartExact`): that one is left free and
  queued, and the loop's assertion fails when it gets there (`EventLoopTheorems.StagingFreeFails`). An error of the
  kernel is handled right exactly when no completion of the request is ready (`EventLoopTheorems.FailExact`).
* A callback that reactivates its request and starts another of the sequence puts two under way, in either order
  (`EventLoopTheorems.StartExact`, `EventLoopTheorems.ReactivateExact`).
* A read that fails, or that brings no data, leaves the source in its reading state without a read, where resuming
  does nothing; nothing else leaves it so (`StreamReading.StallExact`).
* When cancellations clear a sequence, a request that is started after the runner of the sequence has been stopped
  and before that cancellation is through waits for ever, while the loop has nothing left to do
  (`EventLoopProgress.FinishExact`, `EventLoopProgress.StartedTooEarly`). Otherwise, and unless a request of the
  sequence has failed, nobody is forgotten (`EventLoopProgress.NobodyForgotten`).
* A fiber of another thread may return while a stop command that found its request already completed has still to
  signal a counter in its frame: exactly when it reads that the stop has failed before it is signalled
  (`FiberTheorems.FrameExact`, `FiberTheorems.LateStopHappens`). No other access outlives the frame
  (`FiberTheorems.FrameOutlives`), and none that of a fiber of the owner thread (`FiberTheorems.OwnFramesAreFree`).
* The incremental build notices a changed file exactly if its time stamp is later than that of the object
  (`Bootstrap.NoticedExactly`). It does not notice a new file that neither unit lists or checks, and is then right
  exactly if a clean build still gives the same, as it does unless the compiler had looked for that file
  (`Bootstrap.HidingExact`, `Bootstrap.HidingBreaks`).
* The end of a line in a dependency file is not removed: its backslash and the blank after it read as a blank name,
  which is skipped. Names with a backslash that no space follows, or with quotes around them, are read wrong
  (`Dependencies.ReadExactly`).

## Model

| member | source | states |
|---|---|---|
| StreamTheorems.OrderedDelivery | Libraries/AsyncStreams/AsyncStreams.cpp:1368-1490 | in every reachable state, for each sink, written ++ in flight ++ sink queue ++ pending slot is what was dispatched, and dispatched ++ read queue is what push accepted, in order |
| StreamTheorems.ReadsArrive | Libraries/AsyncStreams/AsyncRequestStreams.h:61-100 | a read that completes is never dropped |
| StreamTheorems.StepHistory | Libraries/AsyncStreams/AsyncStreams.cpp:371-419 | each step accepts exactly what arrives, and writes exactly the bytes of the write that completes |
| StreamTheorems.RunHistory | Libraries/AsyncStreams/AsyncStreams.cpp:371-419 | over a run push has accepted what has arrived |
| StreamTheorems.ExactReferences | Libraries/AsyncStreams/AsyncStreams.cpp:16-54 | between steps a buffer's count is the number of its holders, so a buffer is handed out again only when nobody holds it |
| StreamTheorems.NoDeadlock | Libraries/AsyncStreams/AsyncStreams.cpp:1368-1467 | with room in every sink and a buffer in the pool, whenever the source is paused some sink has a write in flight |
| StreamTheorems.ReadInFlight | Libraries/AsyncStreams/AsyncRequestStreams.h:30-100 | in every run whose reads neither fail nor come back empty, a source that is reading has a read in flight, and one that was started no longer waits to be |
| StreamReading.StallExact | Libraries/AsyncStreams/AsyncRequestStreams.h:61-100 | a step leaves a reading source without a read if and only if it is a read that fails or comes back without data |
| StreamTheorems.CompletionsResume | Libraries/AsyncStreams/AsyncStreams.cpp:1433-1467 | only so many writes complete before something else happens; then the source is not paused, and if its reads have succeeded a read is in flight, or it has ended, failed or was not started; if it has ended, every sink has ended with everything accepted |
| StreamTheorems.Quiescent | Libraries/AsyncStreams/AsyncStreams.cpp:1492-1553 | a pipeline at rest is neither paused nor half way through its end |
| StreamTheorems.FinishedHasAll | Libraries/AsyncStreams/AsyncStreams.cpp:769-857 | a sink has finished only when it has written all that push accepted |
| StreamTheorems.EndOfStream | Libraries/AsyncStreams/AsyncStreams.cpp:821-857 | a sink is told to end only when no write is pending and nothing is queued, and has ended only when it has written, in order, all that arrived |
| StreamClosing.EndedIsDestroyed | Libraries/AsyncStreams/AsyncStreams.cpp:522-637 | over every run a source that has ended and holds no more data has been destroyed if and only if it is to be destroyed automatically |
| StreamTheorems.RunInvariant | Libraries/AsyncStreams/AsyncStreams.cpp:356-1553 | every run keeps the invariant of the pipeline |
| StreamTheorems.StepKeeps | Libraries/AsyncStreams/AsyncStreams.cpp:356-1553 | every event keeps it |
| StreamProofs.RefKeeps | Libraries/AsyncStreams/AsyncStreams.cpp:16-22 | one holder more of that buffer, and the counts stay exact |
| StreamReads.Sizes | Libraries/AsyncStreams/AsyncStreams.cpp:177-224 | a buffer that holds no data may be given any size within its storage: the pipeline stays as it is |
| StreamProofs.Unshifts | Libraries/AsyncStreams/AsyncStreams.cpp:420-427 | a buffer that goes back to the front of the queue takes its place in what was accepted, and no sink sees a change |
| StreamProofs.PauseKeeps | Libraries/AsyncStreams/AsyncStreams.cpp:461-479 | a pause changes nothing but the state of the source |
| StreamOperations.UnrefExactly | Libraries/AsyncStreams/AsyncStreams.cpp:23-54 | the last reference makes the buffer whole again, no other buffer changes, and a buffer that nobody holds fails the assertion |
| StreamOperations.WritesExactly | Libraries/AsyncStreams/AsyncStreams.cpp:687-703 | a write is accepted if and only if the sink has not begun to end and its queue has room; it becomes the last of what the sink has to write, and one that is refused changes nothing |
| StreamOperations.ResumesEnding | Libraries/AsyncStreams/AsyncStreams.cpp:712-748 | a sink that is ending has ended if nothing is in flight, and is destroyed then exactly if that is automatic |
| StreamOperations.EndsSinkExactly | Libraries/AsyncStreams/AsyncStreams.cpp:821-857 | told to end, an idle sink has ended, and is destroyed then exactly if that is automatic; one with a write under way ends after it; any other is left as it is |
| StreamOperations.DestroysSinkExactly | Libraries/AsyncStreams/AsyncStreams.cpp:859-893 | destroying a sink gives back one reference for every queued write, and ends it at once or after the write in flight |
| StreamOperations.UnshiftsExactly | Libraries/AsyncStreams/AsyncStreams.cpp:420-427 | a buffer goes before everything that is queued, with one more reference, if and only if there is room; otherwise nothing changes |
| StreamOperations.DestroysSourceExactly | Libraries/AsyncStreams/AsyncStreams.cpp:522-563 | destroying a source gives back the references of its queue and cancels the read in flight first |
| StreamOperations.PushesExactly | Libraries/AsyncStreams/AsyncStreams.cpp:391-418 | after a push that a read makes before it returns the source is pushing whatever a listener does, after a later one only if no listener has paused it |
| StreamOperations.UnpipedDrains | Libraries/AsyncStreams/AsyncStreams.cpp:356-369 | a source that the pipeline has left gives its queued data to nobody and all their references back |
| StreamOperations.StartsNextExactly | Libraries/AsyncStreams/AsyncStreams.cpp:769-802 | after a write the next queued one is in flight with the reference of the queue, or the sink has ended, goes on ending, or is idle |
| StreamOperations.PostponesExactly | Libraries/AsyncStreams/AsyncStreams.cpp:1372-1386 | the assertion on a slot holds if and only if no write is pending for the sink and a slot is empty; the first empty one is taken, and the source is paused exactly if nothing was pending |
| StreamOperations.EndWaits | Libraries/AsyncStreams/AsyncStreams.cpp:1492-1520 | an end with a write pending waits for it; with only data queued that is handed on first, also by a source that has ended |
| StreamOperations.UnpipesExactly | Libraries/AsyncStreams/AsyncStreams.cpp:1221-1246 | at any time unpiping leaves nothing pending, gives back the reference of each pending write, and leaves sinks and source as they are |
| StreamOperations.PausesExactly | Libraries/AsyncStreams/AsyncStreams.cpp:461-479 | pausing has an effect exactly while the source is reading or pushing |
| StreamLimits.AssertionsHold | Libraries/AsyncStreams/AsyncStreams.cpp:1528-1553 | no release assertion ever fails, except possibly that of afterSinkEnd |
| StreamLimits.ListenerAssertion | Libraries/AsyncStreams/AsyncStreams.cpp:1528-1553 | that one fails exactly when a sink finishes its last write after the end while another has stopped writing |
| StreamLimits.OneSinkIsSafe | Libraries/AsyncStreams/AsyncStreams.cpp:1528-1553 | with one sink no assertion fails |
| StreamLimits.FanOutBreaks | Libraries/AsyncStreams/AsyncStreams.cpp:1492-1553 | with more, an end while a write is in flight always makes it fail |
| StreamLimits.ListenerReachable | Libraries/AsyncStreams/AsyncStreams.cpp:1528-1553 | some run makes it fail if and only if there are at least two sinks |
| StreamLimits.RoomIsNeeded | Libraries/AsyncStreams/Internal/CircularQueue.h:26-62 | back-pressure never deadlocks if and only if every sink's queue has room for a write |
| StreamLimits.CompleteAll | Libraries/AsyncStreams/AsyncRequestStreams.h:193-201 | completions alone bring every reachable pipeline to rest |
| StreamLimits.DoneFails | Libraries/AsyncStreams/AsyncStreams.cpp:769-819 | what the completion of one write does to the assertions and to the end of the pipeline |
| AsyncStreams.AsyncBuffersPool.UnrefBuffer | Libraries/AsyncStreams/AsyncStreams.cpp:23-54 | one reference less; the last one restores the whole buffer; a free buffer fails the assertion |
| AsyncStreams.AsyncBuffersPool.RequestNewBuffer | Libraries/AsyncStreams/AsyncStreams.cpp:146-175 | finds the first buffer nobody holds, or none |
| AsyncStreams.AsyncReadableStream.EmitOnData | Libraries/AsyncStreams/AsyncStreams.cpp:356-369 | the emit loop, which stops when a listener pauses the source |
| AsyncStreams.AsyncReadableStream.Push | Libraries/AsyncStreams/AsyncStreams.cpp:371-419 | a pushed buffer is queued and emitted; a full queue pauses or fails |
| AsyncStreams.AsyncReadableStream.ResumeReading | Libraries/AsyncStreams/AsyncStreams.cpp:481-520 | what resuming does in each state |
| AsyncStreams.AsyncReadableStream.Destroy | Libraries/AsyncStreams/AsyncStreams.cpp:522-563 | destruction, at once or when the read in flight has been cancelled |
| AsyncStreams.AsyncReadableStream.ExecuteRead | Libraries/AsyncStreams/AsyncStreams.cpp:565-601 | queued data first, then a new read |
| AsyncStreams.AsyncReadableStream.PushEnd | Libraries/AsyncStreams/AsyncStreams.cpp:603-637 | the source has ended and the pipeline is told |
| AsyncStreams.AsyncReadableStream.AsyncRead | Libraries/AsyncStreams/AsyncRequestStreams.h:30-46 | a read takes a buffer or pauses the source |
| AsyncStreams.AsyncReadableStream.AfterRead | Libraries/AsyncStreams/AsyncRequestStreams.h:61-100 | a completed read pushes its buffer, gives up its reference, and starts the next |
| AsyncStreams.AsyncWritableStream.Write | Libraries/AsyncStreams/AsyncStreams.cpp:687-703 | a write is queued with its own reference, or refused |
| AsyncStreams.AsyncWritableStream.ResumeWriting | Libraries/AsyncStreams/AsyncStreams.cpp:712-748 | an idle sink starts its first queued write |
| AsyncStreams.AsyncWritableStream.FinishedWriting | Libraries/AsyncStreams/AsyncStreams.cpp:769-819 | the next write, or the end, or idle again; then the callback; then the listeners of the end |
| AsyncStreams.AsyncWritableStream.End | Libraries/AsyncStreams/AsyncStreams.cpp:821-857 | an idle sink ends at once, a writing one after its last write |
| AsyncStreams.AsyncWritableStream.Destroy | Libraries/AsyncStreams/AsyncStreams.cpp:859-893 | queued writes are released |
| AsyncStreams.AsyncWritableStream.AfterWrite | Libraries/AsyncStreams/AsyncRequestStreams.h:193-201 | the write in flight completes |
| AsyncStreams.AsyncPipeline.AsyncWriteWritable | Libraries/AsyncStreams/AsyncStreams.cpp:1368-1397 | a sink with room gets the buffer, another a pending slot, and the first slot pauses the source |
| AsyncStreams.AsyncPipeline.RetryPendingWrites | Libraries/AsyncStreams/AsyncStreams.cpp:1399-1431 | pending writes go to the sinks that have room again |
| AsyncStreams.AsyncPipeline.AfterWrite | Libraries/AsyncStreams/AsyncStreams.cpp:1433-1467 | after each write: retry, then the deferred end or the source |
| AsyncStreams.AsyncPipeline.DispatchToPipes | Libraries/AsyncStreams/AsyncStreams.cpp:1469-1490 | a buffer goes to all sinks, or back to the source |
| AsyncStreams.AsyncPipeline.EndPipes | Libraries/AsyncStreams/AsyncStreams.cpp:1492-1526 | the end is deferred, or every sink is told |
| AsyncStreams.AsyncPipeline.AfterSinkEnd | Libraries/AsyncStreams/AsyncStreams.cpp:1528-1553 | listeners are removed, and the pipeline is taken apart when all sinks have ended |
| AsyncStreams.AsyncPipeline.Unpipe | Libraries/AsyncStreams/AsyncStreams.cpp:1092-1180 | pending writes are released |
| AsyncStreams.AsyncPipeline.Take | Libraries/AsyncStreams/AsyncRequestStreams.h:30-201 | one event of the environment, as the function of the whole pipeline |
| AsyncStreams.AsyncPipeline.TakeAll | Libraries/AsyncStreams/AsyncStreams.cpp:821-857 | the objects themselves, over any run: a sink that has ended has written all that arrived |
| CircularQueue.PushedBack | Libraries/AsyncStreams/Internal/CircularQueue.h:38-49 | storing at the write index appends to what the ring holds |
| CircularQueue.PushedFront | Libraries/AsyncStreams/Internal/CircularQueue.h:63-75 | storing before the read index puts an element in front |
| CircularQueue.PoppedFront | Libraries/AsyncStreams/Internal/CircularQueue.h:51-61 | what is read is the first element, and the rest stays |
| CircularQueue.UnrolledAt | Libraries/AsyncStreams/Internal/CircularQueue.h:26-34 | element i is at (read + i) modulo the size, and one slot stays empty |
| CircularQueue.CircularQueue.PushBack | Libraries/AsyncStreams/Internal/CircularQueue.h:38-49 | appends exactly if there is room, one slot less than the memory |
| CircularQueue.CircularQueue.PopFront | Libraries/AsyncStreams/Internal/CircularQueue.h:51-61 | takes the first element, if there is one |
| CircularQueue.CircularQueue.PushFront | Libraries/AsyncStreams/Internal/CircularQueue.h:63-75 | puts an element in front exactly if there is room |
| BufferViews.UnrefChildKeeps | Libraries/AsyncStreams/AsyncStreams.cpp:23-54 | the last reference of a child gives back the one it holds on its root |
| BufferViews.UnrefRootKeeps | Libraries/AsyncStreams/AsyncStreams.cpp:23-54 | a root loses one reference, and the invariant stays |
| BufferViews.UnrefsExactly | Libraries/AsyncStreams/AsyncStreams.cpp:23-54 | what a reference given back leaves of the entry and of its root, and that nothing else changes |
| BufferViews.RefKeeps | Libraries/AsyncStreams/AsyncStreams.cpp:16-22 | a reference more keeps the invariant |
| BufferViews.CreateKeeps | Libraries/AsyncStreams/AsyncStreams.cpp:263-327 | a new view keeps it: its parent is a root, on which it holds one reference |
| BufferViews.CreatesExactly | Libraries/AsyncStreams/AsyncStreams.cpp:263-327 | a view is created if and only if its parent is in use, its bytes lie within the root, up to and including the last, and an entry is empty; otherwise nothing changes, and if it is only the new entry and the count of the root do |
| BufferViews.RequestTakes | Libraries/AsyncStreams/AsyncStreams.cpp:146-175 | requestNewBuffer takes a root that nobody holds and nobody has a view of |
| BufferViews.RequestsExactly | Libraries/AsyncStreams/AsyncStreams.cpp:146-175 | the first idle entry that is large enough is taken whole if it is writable, and held with an error if it is not; with none nothing changes |
| BufferViews.ResizeKeeps | Libraries/AsyncStreams/AsyncStreams.cpp:177-224 | a change of size keeps the invariant |
| BufferViews.ResizesExactly | Libraries/AsyncStreams/AsyncStreams.cpp:177-224 | an entry shows as many bytes as asked for, from where it did, if and only if they fit, and otherwise stays |
| BufferViews.ViewComposes | Libraries/AsyncStreams/AsyncStreams.cpp:263-327 | a view of a view shows exactly the composed slice of the root, within the root |
| BufferViews.NestedWithin | Libraries/AsyncStreams/AsyncStreams.cpp:263-327 | it stays within its parent if and only if the slice asked for does |
| BufferViews.RequestIsPrivate | Libraries/AsyncStreams/AsyncStreams.cpp:136-175 | requestNewBuffer never returns memory that a live child shows |
| BufferViews.NothingLeaks | Libraries/AsyncStreams/AsyncStreams.cpp:23-54 | when clients hold nothing, no child is left and no root is referenced |
| BufferViews.ViewsPool.CreateChildView | Libraries/AsyncStreams/AsyncStreams.cpp:263-327 | in place: the view denotes the composed slice of the root, and the root has one reference more, or an error and no change |
| BufferViews.ViewsPool.UnrefBuffer | Libraries/AsyncStreams/AsyncStreams.cpp:23-54 | in place: one reference less, and with the last one of a child one less of its root |
| BufferViews.ViewsPool.RequestNewBuffer | Libraries/AsyncStreams/AsyncStreams.cpp:146-175 | in place: the first idle root that is large enough, and an error that keeps the reference if it is not writable |
| EventLoopTheorems.CountersExact | Libraries/Async/Async.cpp:1640-1672 | in every run the four counters agree with the states of the requests; the total checked before polling is never negative, and it and the manual completions are zero exactly when only excluded requests are active |
| EventLoopTheorems.AssertionsHold | Libraries/Async/Async.cpp:1527-1567 | in every run no release assertion fails and every request is in exactly the list its state says |
| EventLoopTheorems.SequencesInOrder | Libraries/Async/Async.cpp:1262-1333 | in every run a sequence has at most one request under way that is not being cancelled, requests leave it in start order, and it is tracked exactly while it runs or has requests that wait |
| EventLoopTheorems.HandsOver | Libraries/Async/Async.cpp:1574-1618 | a completion that is not reactivated submits the oldest request that waits, unless the callback has started one |
| EventLoopProgress.NobodyForgotten | Libraries/Async/Async.cpp:1311-1324 | in every run, when nothing is left to submit or cancel, a request waits in a sequence only behind an active one, provided no request of it has failed and cancellations do not clear it |
| EventLoopProgress.FinishExact | Libraries/Async/Async.cpp:1750-1792 | a cancellation that ends leaves requests waiting behind nobody if and only if cancellations clear the sequence and requests have been started in it while the cancelled one was still its runner |
| EventLoopProgress.StartedTooEarly | Libraries/Async/Async.cpp:1750-1792 | a run of four steps in which that happens: the loop ends and the second request is never submitted |
| EventLoopProgress.StepFlows | Libraries/Async/Async.cpp:1280-1333 | every step keeps that somebody will resume a sequence in which requests wait |
| EventLoopTheorems.StopExact | Libraries/Async/Async.cpp:2213-2271 | stopping keeps the number of submissions right if and only if the request does not wait in a sequence and is not being stopped by its own error callback after its staging failed |
| EventLoopTheorems.StartExact | Libraries/Async/Async.cpp:1291-1309 | a start puts two requests of a sequence under way if and only if the callback that makes it has just reactivated its own request, which is still under way in that sequence |
| EventLoopTheorems.ReactivateExact | Libraries/Async/Async.cpp:164-229 | a reactivation does so if and only if the request is free and another of its sequence is under way, because the callback has started it before |
| EventLoopTheorems.RestartExact | Libraries/Async/Async.cpp:2159-2182 | after an error callback that starts a request every request is in exactly the list its state says if and only if that request is not its own |
| EventLoopTheorems.RestartedByItsError | Libraries/Async/Async.cpp:2159-2182 | a request restarted by its own error callback is left free, and is submitted or waits in its sequence |
| EventLoopTheorems.StagingFreeFails | Libraries/Async/Async.cpp:1527-1567 | the loop's assertion fails when it gets to such a request |
| EventLoopTheorems.FailExact | Libraries/Async/Async.cpp:2159-2182 | an error for an active request leaves every request in exactly the list its state says if and only if its completion was not ready |
| EventLoopTheorems.ErrorWhileReady | Libraries/Async/Async.cpp:2159-2182 | an error for a request whose completion is ready leaves it in the list of ready completions, and completing it fails the assertion |
| EventLoopTheorems.StepKeeps | Libraries/Async/Async.cpp:1291-2497 | every step of the callers, the loop and the kernel keeps the invariant |
| EventLoopTheorems.RunKeeps | Libraries/Async/Async.cpp:1291-2497 | so does every run |
| EventLoopLife.NextLives | Libraries/Async/Async.cpp:1291-2497 | the whole loop, with its queues, counters and sequences, does to every request what a simple form without them says: which state and flags each step gives to its own request, and exactly which waiting requests it frees |
| EventLoopQueues.NextFifo | Libraries/Async/Async.cpp:1291-2497 | submissions, cancellations and ready completions are served in the order in which requests entered them, and every step leaves the callback running that it should |
| EventLoopLife.CallbacksAsAsked | Libraries/Async/Async.cpp:1783-1791 | over every run a close callback has run once for each cancellation that came to its end after a stop that asked for it, and for no other: the last stop counts |
| EventLoopLife.StopTold | Libraries/Async/Async.cpp:2213-2271 | in every state a stop leaves the request with the callback it was given, and on its way to be cancelled unless it was free |
| EventLoopLife.ReactivateFailsExactly | Libraries/Async/Async.cpp:164-229 | reactivating fails the assertion exactly if the callback has stopped or restarted the request, or it is active |
| EventLoopLife.AssertsExactly | Libraries/Async/Async.cpp:1527-2401 | which states each release assertion lets through |
| EventLoopLife.StoppedInReport | Libraries/Async/Async.cpp:2159-2182 | a request that its error callback has stopped is still on its way to be cancelled when the callback has returned |
| EventLoopSteps.StopKeeps | Libraries/Async/Async.cpp:2213-2271 | stop keeps the invariant in each of the six states |
| EventLoopSteps.StartKeeps | Libraries/Async/Async.cpp:1291-1309 | start keeps it |
| EventLoopSteps.RemoveKeeps | Libraries/Async/Async.cpp:2339-2397 | removeActiveHandle keeps it, and its sequence stops running |
| EventLoopSteps.AddKeeps | Libraries/Async/Async.cpp:2399-2494 | addActiveHandle keeps it |
| EventLoopLife.ExcludeExact | Libraries/Async/Async.cpp:1075-1085 | afterwards a request in use is excluded, the loop waits for one request less exactly if it waited for this one, nothing else changes, and including it again gives the loop back |
| EventLoopLife.IncludeExact | Libraries/Async/Async.cpp:1087-1097 | afterwards it is not excluded, and the loop waits for one request more exactly if this one is active, not ready and was excluded |
| EventLoopLife.PostExact | Libraries/Async/Async.cpp:1135-1159 | an active request becomes ready, behind all that are: one request less to wait for exactly if it was waited for, one completion more exactly if it was not ready |
| EventLoopDispatch.ReactivateRequestKeeps | Libraries/Async/Async.cpp:164-229 | reactivateRequest keeps it, whether the backend needs another submission or not |
| EventLoopDispatch.StageKeeps | Libraries/Async/Async.cpp:1527-1567 | staging keeps it, whatever the kernel answers |
| EventLoopDispatch.EndCompletionKeeps | Libraries/Async/Async.cpp:1574-1618 | what follows the callback of a completion keeps it |
| EventLoopDispatch.EndReportKeeps | Libraries/Async/Async.cpp:2159-2182 | what follows an error callback keeps it |
| EventLoopDispatch.FinishKeeps | Libraries/Async/Async.cpp:1750-1792 | completeCancellation keeps it |
| EventLoopShutdown.CloseStopsAll | Libraries/Async/Async.cpp:1479-1513 | the walks of close find every request: all are free or being cancelled afterwards, none lost, and no close callback that was owed is forgotten |
| EventLoopShutdown.ShutdownKeeps | Libraries/Async/Async.cpp:1731-1792 | each step of the final run brings the loop nearer to its end and forgets no close callback |
| EventLoopShutdown.ShutdownProgress | Libraries/Async/Async.cpp:924-940 | some step can be taken until nothing is left |
| EventLoopShutdown.ClosedAtEnd | Libraries/Async/Async.cpp:1516-1524 | then every request is free, all lists are empty and all counters are zero |
| EventLoopShutdown.CloseEnds | Libraries/Async/Async.cpp:1479-1524 | from every reachable state between steps, closing ends within a bound, with everything free and zero, and each close callback has run exactly as often as a stop had asked for it |
| Async.AsyncEventLoop.Take | Libraries/Async/Async.cpp:1291-2497 | one step of callers, loop or kernel in place is the step that the theorems speak of |
| Async.AsyncEventLoop.TakeAll | Libraries/Async/Async.cpp:1291-2497 | the object itself, over any run: no assertion has failed, the counters are those of the requests, the total is not negative, each sequence has at most one request under way, and close callbacks have run as the stops have asked |
| Async.AsyncEventLoop.ClearSequence | Libraries/Async/Async.cpp:1326-1333 | the loop frees exactly the requests that wait, and untracks an idle sequence |
| Async.AsyncEventLoop.Start | Libraries/Async/Async.cpp:1123-1133 | a request in use is refused, a free one is queued |
| Async.AsyncEventLoop.Stop | Libraries/Async/Async.cpp:2213-2271 | in place, in each of the six states: to the submissions, to the cancellations, or refused; the close callback is that of this stop |
| Async.AsyncEventLoop.StopRequests | Libraries/Async/Async.cpp:1372-1387 | the walk over a list stops what was in it |
| Async.AsyncEventLoop.StopSequenceRequests | Libraries/Async/Async.cpp:1389-1404 | the walk over the sequences stops their runners |
| Async.AsyncEventLoop.StopAll | Libraries/Async/Async.cpp:1479-1513 | the first half of close |
| Async.AsyncEventLoop.SubmitCancellations | Libraries/Async/Async.cpp:1527-1567 | the loop leaves nothing to submit and forgets no close callback |
| Async.AsyncEventLoop.ExecuteCancellations | Libraries/Async/Async.cpp:1731-1748 | the walk finishes every cancellation that does not wait for the kernel |
| Async.AsyncEventLoop.Close | Libraries/Async/Async.cpp:1479-1524 | the object itself: close ends, however slow the kernel is, with every request free, all lists empty and all counters zero, and each close callback has run as often as a stop had asked for it |
| Timers.InsertionSorts | Libraries/Async/Async.cpp:2430-2472 | insertion keeps the list sorted and puts a timer after all that expire with it |
| Timers.FiringOrder | Libraries/Async/Async.cpp:1337-1370 | timers fire in list order, and those left stay in that order |
| Timers.FiringExact | Libraries/Async/Async.cpp:1337-1370 | a timer fires exactly once if it is due and no callback before it has stopped it, and is left exactly if it is not due and none has |
| Timers.RemovalKeeps | Libraries/Async/Internal/IntrusiveDoubleLinkedList.inl:82-122 | removal takes one timer out and leaves the others in order |
| Timers.TimerList.Add | Libraries/Async/Async.cpp:2430-2472 | the links are well formed and hold the sorted list with the timer in its place |
| Timers.TimerList.Remove | Libraries/Async/Internal/IntrusiveDoubleLinkedList.inl:82-122 | the links are well formed and hold the list without the timer |
| Timers.TimerList.InvokeExpired | Libraries/Async/Async.cpp:1337-1370 | the loop with its saved cursor ends, fires exactly the timers the specification gives, and leaves the others |
| WakeUps.Conservation | Libraries/Async/Async.cpp:266-284 | what callbacks have been told and what is pending are the wakeUp calls |
| WakeUps.NoLostWakeUp | Libraries/Async/Async.cpp:2294-2337 | a pending wake-up is covered by the latch, by the dispatch under way or by a thread about to take the latch, and a latch that is set by a notification |
| WakeUps.EverythingDelivered | Libraries/Async/Async.cpp:984-993 | when nobody has anything to do every call has been delivered |
| WakeUps.DispatchDelivers | Libraries/Async/Async.cpp:2294-2337 | a dispatch comes to an end, and tells each wake-up of all its calls if they are coalesced and of one otherwise |
| WakeUps.RearmsExactly | Libraries/Async/Async.cpp:2294-2337 | a dispatch takes all notifications, and leaves one behind exactly if some wake-up still has calls to be told of |
| WakeUps.NotifiesExactly | Libraries/Async/Async.cpp:266-284 | a call notifies the kernel exactly if it is the first pending one and nobody else has notified |
| WakeUps.VisitsExactly | Libraries/Async/Async.cpp:2294-2337 | in every state a visit tells of all pending calls or of one, and looks at the wake-up again if and only if it told of any |
| Monitor.EventsExclusive | Libraries/Async/Async.cpp:1187-1236 | the two threads never use the kernel events at once |
| Monitor.WaitIsSatisfiable | Libraries/Async/Async.cpp:1195-1226 | while the main thread waits, the polling thread can go on without I/O |
| Monitor.WaitEnds | Libraries/Async/Async.cpp:1195-1226 | five steps of the polling thread end the wait |
| Monitor.MonitoringEnds | Libraries/Async/Async.cpp:1187-1236 | from every reachable state the main thread is through with monitoring after fifteen steps at most, its own and those it waits for |
| Monitor.StopDelivers | Libraries/Async/Async.cpp:1195-1236 | a stop that had to wake the polling thread is not through before the callback of that wake-up has run, in an extra step exactly if it is needed |
| Monitor.StopSends | Libraries/Async/Async.cpp:1219-1224 | a stop wakes the loop if and only if the polling thread has not announced events yet, and notifies the kernel if and only if nobody has |
| Monitor.DispatchCalls | Libraries/Async/Async.cpp:1178-1182 | the monitor's callback has run after a dispatch if and only if it had before or the notification came with a call pending |
| Monitor.WaitsExactly | Libraries/Async/Async.cpp:1195-1236 | in every state each thread waits exactly for its event, and a poll or an extra step for the kernel |
| Monitor.ExtraStepReturns | Libraries/Async/Async.cpp:1229-1236 | the extra step of the loop runs only while the notification is still in the kernel |
| SkynetTheorems.RunsAreCorrect | Examples/FibersSkynetBenchmark/FibersSkynetBenchmark.cpp:183-255 | for every depth and interleaving: at rest every node is complete, all slots are claimed, and the root holds leaves * (leaves - 1) / 2 |
| SkynetTheorems.ResultsAreFinal | Examples/FibersSkynetBenchmark/FibersSkynetBenchmark.cpp:183-222 | a continuation runs only when all ten children are final, and a final node of base b over m leaves holds m * b + m * (m - 1) / 2 |
| SkynetTheorems.SafeClaims | Examples/FibersSkynetBenchmark/FibersSkynetBenchmark.cpp:224-255 | claimed ranges are disjoint and inside the array, and a continuation is spawned at most once, at counter zero |
| SkynetTheorems.RunsAreFinite | Examples/FibersSkynetBenchmark/FibersSkynetBenchmark.cpp:224-255 | no schedule is longer than the steps of the tree |
| SkynetTheorems.ErrorsExact | Examples/FibersSkynetBenchmark/FibersSkynetBenchmark.cpp:160-236 | in every state a step records one error if and only if the claimed slots do not exist, or its parent has no counter left or is not idle; then it spawns nothing and its job is over |
| SkynetTheorems.StepAdvances | Examples/FibersSkynetBenchmark/FibersSkynetBenchmark.cpp:183-255 | every step keeps the invariant and leaves less to do |
| SkynetProofs.Decreases | Examples/FibersSkynetBenchmark/FibersSkynetBenchmark.cpp:209-222 | a decrement finds a positive counter, and the child that takes it to zero owes the continuation |
| SkynetRanges.ClaimsRange | Examples/FibersSkynetBenchmark/FibersSkynetBenchmark.cpp:224-236 | ten consecutive slots are claimed that nobody else has |
| Skynet.FitsMachine | Examples/FibersSkynetBenchmark/FibersSkynetBenchmark.cpp:57-78 | indices and sums fit the program's integers |
| Skynet.ReadyCapacity | Examples/FibersSkynetBenchmark/FibersSkynetBenchmark.cpp:391-430 | what waits at once never exceeds the node count used as capacity |
| Skynet.PowerOfTenLoop | Examples/FibersSkynetBenchmark/FibersSkynetBenchmark.cpp:57-66 | the loop computes the power, without overflow |
| Skynet.NodeCountForDepth | Examples/FibersSkynetBenchmark/FibersSkynetBenchmark.cpp:68-78 | the loop computes the number of nodes of the tree |
| Skynet.Runtime.Measure | Examples/FibersSkynetBenchmark/FibersSkynetBenchmark.cpp:443-468 | the nodes and counters a measurement starts from |
| Skynet.Runtime.PrepareChildren | Examples/FibersSkynetBenchmark/FibersSkynetBenchmark.cpp:224-255 | the loop over ten children |
| Skynet.Runtime.SumChildren | Examples/FibersSkynetBenchmark/FibersSkynetBenchmark.cpp:183-207 | the loop that adds the results of the children |
| FiberTheorems.DecrementedOnce | Libraries/AsyncFibers/AsyncFibers.cpp:899-1067 | the shared counter is the number of operations under way, never goes wrong, and is decremented exactly once for every operation, before its fiber returns |
| FiberOutcomes.CancelledNeverStarts | Libraries/AsyncFibers/AsyncFibers.cpp:945-971 | a fiber that is cancelled before the owner thread has looked at its start command: in every continuation its request is never started, and by the end of the command the operation has been taken from the counter once |
| FiberOutcomes.RefusesCancelled | Libraries/AsyncFibers/AsyncFibers.cpp:945-955 | five steps of the owner thread after it has looked, the command is over and the shared counter is one less |
| FiberOutcomes.StartsUncancelled | Libraries/AsyncFibers/AsyncFibers.cpp:957-971 | a start command that finds the flag clear makes the request active and tells the fiber, or leaves it unstarted if the loop refuses it |
| FiberOutcomes.UncancelledCompletes | Libraries/AsyncFibers/AsyncFibers.cpp:973-1016 | a fiber that nobody has cancelled returns only when its request has completed or could not be started, and nobody has tried to stop it |
| FiberOutcomes.CancelledNeverBegins | Libraries/AsyncFibers/AsyncFibers.cpp:899-909 | a fiber that is cancelled before it asks for an operation gets none |
| FiberOutcomes.CancelledNeverWaits | Libraries/AsyncFibers/AsyncFibers.cpp:973-995 | a fiber that is cancelled before it waits does not wait |
| FiberOutcomes.EnqueuesExactly | Libraries/AsyncFibers/AsyncFibers.cpp:836-866 | a command enters the ring behind all others exactly if there is room, and otherwise the start is undone or the stop is waited out |
| FiberTheorems.FrameOutlives | Libraries/AsyncFibers/AsyncFibers.cpp:945-971 | the frame of a fiber outlives every access by its start command and by its callback; only a stop command that came too late may still be under way |
| FiberTheorems.FrameExact | Libraries/AsyncFibers/AsyncFibers.cpp:973-1055 | whichever step a fiber returns with, in any run, its frame is still in use if and only if that step reads the outcome of a stop that has failed and has not been signalled |
| FiberTheorems.OwnFramesAreFree | Libraries/AsyncFibers/AsyncFibers.cpp:899-971 | a fiber that runs on the owner thread never returns with its frame in use |
| FiberTheorems.NobodyWaits | Libraries/AsyncFibers/AsyncFibers.cpp:973-1016 | when nobody can take a step every fiber has returned |
| FiberOutcomes.RunsAreFinite | Libraries/AsyncFibers/AsyncFibers.cpp:899-1067 | no run goes on for ever: 420 steps for each operation, however often fibers are cancelled |
| FiberTheorems.BlockedWaits | Libraries/AsyncFibers/AsyncFibers.cpp:973-1016 | a fiber is blocked only by somebody who still has to do something for it |
| FiberTheorems.LateStopHappens | Libraries/AsyncFibers/AsyncFibers.cpp:1018-1067 | a run in which a fiber of another thread does |
| FiberInvariant.FiberKeeps | Libraries/AsyncFibers/AsyncFibers.cpp:899-1055 | every step of a fiber keeps what holds of its operation |
| FiberInvariant.OwnerKeeps | Libraries/AsyncFibers/AsyncFibers.cpp:945-1067 | so does every step of the owner thread |
| CommandRing.Appended | Libraries/AsyncFibers/AsyncFibers.cpp:836-866 | storing at (head + count) modulo the size appends |
| CommandRing.Popped | Libraries/AsyncFibers/AsyncFibers.cpp:876-897 | clearing the head leaves the rest |
| CommandRing.CommandRing.Enqueue | Libraries/AsyncFibers/AsyncFibers.cpp:836-866 | a command is appended exactly if there is memory and room |
| CommandRing.CommandRing.Dequeue | Libraries/AsyncFibers/AsyncFibers.cpp:876-897 | the first command is taken |
| HandlerLifecycle.CounterIsExact | Examples/FibersStackGrowthPrototype/FibersStackGrowthPrototype.cpp:396-487 | the counter is -1 exactly while one thread installs or closes, and otherwise the number of registered threads |
| HandlerLifecycle.HandlersAreStable | Examples/FibersStackGrowthPrototype/FibersStackGrowthPrototype.cpp:365-487 | a thread past installHandler sees both actions, and nothing installed changes while a thread is registered |
| HandlerLifecycle.RegistersExactly | Examples/FibersStackGrowthPrototype/FibersStackGrowthPrototype.cpp:396-405 | a thread is registered if and only if nobody installs or closes |
| HandlerLifecycle.ChecksExactly | Examples/FibersStackGrowthPrototype/FibersStackGrowthPrototype.cpp:366-376 | a registered thread gets past installHandler if and only if both actions are installed, and every other one unregisters |
| HandlerLifecycle.LocksExactly | Examples/FibersStackGrowthPrototype/FibersStackGrowthPrototype.cpp:414-462 | the lock is taken if and only if nobody is registered and nobody holds it, and only an owner closes |
| HandlerLifecycle.InstallsOrRollsBack | Examples/FibersStackGrowthPrototype/FibersStackGrowthPrototype.cpp:414-451 | installing sets and records both actions, or, when the system refuses one, leaves everything as it was |
| HandlerLifecycle.ClosesOrKeeps | Examples/FibersStackGrowthPrototype/FibersStackGrowthPrototype.cpp:453-487 | closing leaves nothing installed or recorded, or, when the system refuses, the rest as it was |
| StackGrowth.GrowingStack.TryGrow | Examples/FibersStackGrowthPrototype/FibersStackGrowthPrototype.cpp:289-312 | exactly when the stack grows, and by how much |
| StackGrowth.BoundedGrowth | Examples/FibersStackGrowthPrototype/FibersStackGrowthPrototype.cpp:121-123 | at most fourteen growths, and then all is committed |
| Bootstrap.IncrementalIsClean | Tools/ToolsBootstrap.c:2034-2084 | over every history of edits and builds, a build that succeeds leaves the executable a clean build of the current sources gives, unless a file has appeared that a unit it does not compile had looked for and not found |
| Bootstrap.CleanWhileNothingHides | Tools/ToolsBootstrap.c:2034-2084 | when no edit of the history creates such a file, every successful build leaves the clean executable |
| Bootstrap.SecondBuildIsIdle | Tools/ToolsBootstrap.c:2204-2230 | a build after a successful one changes nothing and needs no compiler |
| Bootstrap.BuildSucceedsExactly | Tools/ToolsBootstrap.c:2034-2084 | a build succeeds if and only if there is nothing to do, or there is a compiler that can compile each unit that needs it, and link |
| Bootstrap.WorkingBuildIsClean | Tools/ToolsBootstrap.c:2034-2084 | over every history, a build whose compiler works on the units that need it leaves the clean executable, whatever was edited and whatever has failed before, when nothing is hidden |
| Bootstrap.LeavesUnbuilt | Tools/ToolsBootstrap.c:2034-2084 | what is left to compile after a build is exactly what needed it and could not be compiled |
| Bootstrap.UpToDate | Tools/ToolsBootstrap.c:1548-1570 | an object that need not be built again, and that nothing hides, is what the compiler would make now |
| Bootstrap.NoticedExactly | Tools/ToolsBootstrap.c:1495-1528 | a changed file that was read is noticed if and only if its time is later than the object's |
| Bootstrap.WriteIsNoticed | Tools/ToolsBootstrap.c:1495-1528 | a file that is written makes a unit that was up to date compile again if and only if the unit lists or checks it |
| Bootstrap.RemoveIsNoticed | Tools/ToolsBootstrap.c:1495-1528 | a file that is removed makes a unit that was up to date compile again if and only if the unit lists or checks it, and every other file stays |
| Bootstrap.HidingExact | Tools/ToolsBootstrap.c:1495-1528 | on every disk that keeps the invariant, where nothing has to be built and nothing is hidden, writing a file that neither unit lists or checks leaves the build idle; the executable is then right if and only if a clean build still gives the same, and always if no unit had looked for the file |
| Bootstrap.SearchingIsLocal | Tools/ToolsBootstrap.c:1548-1570 | a compiler that searches two directories for a header is one of those that the theorems are about |
| Bootstrap.HidingBreaks | Tools/ToolsBootstrap.c:1495-1528 | with that compiler, for any two headers of which the second hides the first: the build is idle, and right if and only if the headers are the same |
| Dependencies.ParsesWhatIsWritten | Tools/ToolsBootstrap.c:1360-1454 | any list of clean names, escaped and spread over lines as compilers do, is read back as that list |
| Dependencies.ReadExactly | Tools/ToolsBootstrap.c:1360-1454 | a name is read back if and only if every backslash in it is followed by a space and it has no line break, no tab in front, no quotes at both ends and is not blank |
| Dependencies.EscapeRoundTrip | Tools/ToolsBootstrap.c:1285-1305 | unescaping undoes escaping if and only if every backslash is followed by a space |
| Dependencies.UnescapeMakeDependency | Tools/ToolsBootstrap.c:1285-1305 | the loop with its flag drops each escaping backslash and keeps what follows it |
| Dependencies.ParseMakeDependencies | Tools/ToolsBootstrap.c:1410-1450 | the loops over blanks and names read what the specification gives |
| Bootstrap.BootstrapBuild.CheckNeedsRebuild | Tools/ToolsBootstrap.c:1495-1528 | the two loops answer whether a source or a dependency is missing or newer |
| Bootstrap.BootstrapBuild.NeedsRebuildObject | Tools/ToolsBootstrap.c:1548-1570 | whether an object has to be built |
| Bootstrap.BootstrapBuild.NeedsRebuildExe | Tools/ToolsBootstrap.c:1604-1617 | whether the executable has to be linked |
| Bootstrap.BootstrapBuild.Compile | Tools/ToolsBootstrap.c:2034-2084 | what is needed is decided first, both units are compiled, and linking follows if needed |
| Bootstrap.BootstrapBuild.Make | Tools/ToolsBootstrap.c:2204-2230 | the build program itself: it succeeds exactly when there is nothing to do or the compiler can do what is needed, keeps the invariant, and when it succeeds and nothing was hidden leaves the clean executable |

## Left out

Async Streams:

- Transforms, error events, `destroy` and `unpipe` by the caller, growable buffers, synchronous push sources, and
  sources that keep going after `pushEnd` with a read in flight.
- An `asyncWrite` that fails, and an external pause while a read is in flight: the source's own code does not recover.
- Sinks are positions in a list and distinct; a sink that is listed twice is not modelled.
- BufferViews.ViewComposes: offsets and lengths are unbounded, so that the additions of createChildView cannot wrap.

Event loop:

- EventLoopTheorems.SequencesInOrder: the requests of a sequence are no timers or wake-ups, because those never
  resume their sequence; and a callback does not both reactivate its request and start another of its sequence, in
  either order: `StartExact` and `ReactivateExact` say what happens then.
- EventLoopProgress.NobodyForgotten: a request of the sequence that fails, or that the kernel cannot cancel, leaves the
  rest waiting until the next start, as the program does.
- EventLoopTheorems.CountersExact: callers do not stop a request that waits in a sequence, and an error callback
  neither stops nor restarts its own request, and the kernel reports no error for a request whose completion is
  ready; `StopExact`, `RestartExact` and `FailExact` say what happens then.
- EventLoopShutdown.CloseEnds: kernel cancellations succeed, and close callbacks start nothing.
- The list of completed thread-pool operations, the flag that keeps polling for kernel cancellations, and nested runs
  of the loop from callbacks.
- The typed lists of active requests are one list; their links are modelled for the timers only.
- Timers.FiringExact: callbacks stop timers, but start or reactivate none; a timer that a callback starts waits with
  the submissions (Libraries/Async/Async.cpp:1291-1309) and enters the list of active timers after the walk.
- WakeUps.NoLostWakeUp: the compare-and-swap loop that takes one pending wake-up is one step, and its 32-bit counter
  does not overflow.
- Monitor.WaitEnds: `close` of the monitor is not modelled.
- Kernel backends (io_uring, epoll, kqueue, IOCP) are nondeterministic answers.

Fibers, stacks, benchmark:

- FiberTheorems.NobodyWaits: a stop fails only because the request has completed.
- FiberOutcomes.RefusesCancelled: which result the operation returns to its fiber is not part of this model.
- The helpers that loop over partial sends and reads, and the other request types of the fiber API.
- Registration on the alternate signal stack, and what the signal handler does after a growth.
- Reporting, sampling and command lines of the benchmark.

Bootstrap:

- Bootstrap.IncrementalIsClean: the compiler's result depends only on the files it lists and on the absence of those
  it looked for in vain; sources do not change while a build runs; a compiler that fails leaves or removes its
  outputs but does not replace only one of them.
- Dependencies.ParseMakeDependencies: starts from the joined lines after the colon; lines longer than the read buffer,
  which are split in the middle of a name, are not modelled.
- Dependency files in JSON, path canonicalisation, the Windows build, and a change of compiler or flags.

Everything else in the repository (containers, sockets, files, HTTP, graphics, plugins, build descriptions, package
download, examples) is not part of this model.
