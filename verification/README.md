# pynng: completions, pipes, devices and messages, verified

pynng is a Python binding of the nng messaging library. Its hard part is the code between nng's own
threads and Python: a native queue that carries completions into an asyncio loop, a dispatcher for
pipe events that arrive on several threads and out of order, devices that must end before their
sockets close, and messages that must be freed by exactly one side. This project models that code in
Dafny and proves what it keeps, over every interleaving and every run.

`dafny verify dfyconfig.toml` checks everything.

## How it is built

Code that changes objects in place is modelled as classes whose methods are proved against functions
on values. Code that several threads run at the same time is modelled as a state machine: a datatype
of steps, `Enabled` (when a thread can take a step), `Apply` (what it does), and theorems over every
run from `Initial`. A region that the original runs with a lock held is one step, and code outside
the lock is split wherever another thread can run.

The native queue and the pipe tables have one set of value functions: the classes are proved against
them, and the run theorems take them as steps. The drain loop of the engine and the draining steps of
the pooled helpers are tied by a proof (`DrainRefinement.TurnRefinesEngine`). The other classes and
machines stand side by side.

| file | about |
|---|---|
| `CompletionSpec.dfy` | the completion queue as values, and what draining it means |
| `CompletionQueue.dfy` | the ring buffer itself, in place |
| `QueueLifetime.dfy`, `QueueRuns.dfy` | all threads that share one queue: wake-ups, reference counts, entry memory |
| `SlotTable.dfy`, `AioEngine.dfy` | slot ids, the slot-to-future table, the drain loop |
| `OwnCompletion.dfy`, `HelperPool.dfy`, `PoolRace.dfy` | pooled helpers and devices, which completion resolves which future, and several threads on one pool |
| `DrainRefinement.dfy` | the helpers' draining steps are the engine's drain loop |
| `SlotReuse.dfy` | exactly when a reused slot id goes wrong |
| `PipeTable.dfy`, `PipeRuns.dfy` | the pipe event dispatcher, and every interleaving of its events |
| `DeviceRegistry.dfy`, `DeviceClose.dfy`, `DeviceSection.dfy` | devices against close, and finalizers against the device lock |
| `SyncSend.dfy`, `AsyncMessages.dfy` | who owns an nng message, through interrupts, failures and cancellation |
| `Rep0Service.dfy` | the concurrent reply service |
| `TlsConfig.dfy` | one TLS configuration kept in several nng libraries |
| `Wrappers.dfy` | the option type |

## Where the code needs a condition

Some promises do not hold of every run. Each is stated with its exact condition, and with a run that
breaks it.

- A completion that finds the ring full while `malloc` fails leaves its entry QUEUED but unlinked. It
  is never reported, and its memory and the queue's are never released. Memory is all released if and
  only if this never happened (`QueueRuns.AllMemoryReleased`, `QueueRuns.GrowthCanFail`).
- A helper that was resolved keeps its slot id until its task runs again, and then removes that id
  from the table even if another operation has it by now. If the 31-bit counter wraps around in
  between, a later operation can get an id under which another completion is still to come. At every
  point of a run this is what makes a foreign completion possible, and nothing else does
  (`SlotReuse.ForeignIffHijacked`). The first 2^31 operations of an engine are always safe
  (`SlotReuse.OwnCompletionBeforeWrapAround`), and with one more they need not be
  (`SlotReuse.WrapAroundMisdelivers`).
- With n threads, as when n event loops use one socket, a helper pool holds up to 32 + n - 1 helpers,
  so it keeps its bound of 32 if and only if one thread releases to it (`PoolRace.BoundIsExact`,
  `PoolRace.BoundIffOneThread`). A pop never meets an empty list if and only if one thread uses the
  pool (`PoolRace.PopIsSafeIffOneThread`, `PoolRace.TwoTakersRaise`). A pool that a close emptied
  stays empty if and only if no thread was between its check and its append
  (`PoolRace.ClosedStaysEmptyIff`, `PoolRace.LateAppend`).
- The dispatcher remembers 1024 removed pipe ids. The order of a pipe's callback rounds holds if and
  only if none of its connect events came after its id was forgotten
  (`PipeRuns.RoundsInOrder`, `PipeRuns.LateEventResurrects`).
- Leaving a `Request` without a reply lets its worker receive again; a reply to the old request then
  answers the new one. All replies answer their own request if and only if no reply was made to a
  request whose context had gone on (`Rep0Service.RepliesAnswerTheirOwn`, `Rep0Service.ReplyAfterExitStrays`).
- A TLS setter leaves the libraries in agreement if and only if it left nobody behind: no usable
  library lacks the constant, and none stands after the first one that failed
  (`TlsConfig.AgreementExact`). An accepted auth mode that has no name leaves one behind, and so does
  a failure of the second of three (`TlsConfig.UnnamedModeLeavesBehind`,
  `TlsConfig.ThirdLibraryLeftBehind`). With two libraries and known auth modes the libraries always
  agree, setting by setting (`TlsConfig.ReplicasAgree`, `TlsConfig.ReplicasAgreeByName`).
- `AIOHelper._free` on a helper whose receive nng still runs loses the message if the receive delivered
  one before the cancellation, and only then (`AsyncMessages.Helper.Free`,
  `AsyncMessages.FreeLosesMessage`).
- Threads never deadlock on the device lock because finalizers ask whether their thread may hold it;
  without that question one thread alone can (`DeviceSection.NoSelfDeadlockIffHandsOff`,
  `DeviceSection.WithoutHandOff`).

The class comments and the change log call the completion queue wait-free (pynng/_aio.py:46-48). The
code is a ring behind a mutex, and that is what is modelled.

## What the environment is taken to do

- nng runs one completion callback for each started operation, and none after `nng_aio_free`.
- A helper frees its entry only after its aio (pynng/_aio.py:635-648), and each entry once.
- nng delivers each pipe event at most once per pipe id, ADD_POST after the dispatch of ADD_PRE
  returned, and REM_POST at any time on a thread that is not running a callback of that pipe.
- nng takes a message and clears the aio's message, or leaves both.
- A task cancellation reaches a wait only through its future.

## Model

The main theorems come first, and then, file by file, what they rest on.

| member | source | states |
|---|---|---|
| QueueRuns.NoLostWakeUp | src/aio_engine.h:163-173 | in every run a linked entry means that the pipe holds a byte, or a completer that holds the lock is about to write one, or the handler has not yet seen an empty batch |
| QueueRuns.AllMemoryReleased | src/aio_engine.h:206-219 | whoever goes first, in the end the queue and all entries are released if and only if no growth failed |
| QueueRuns.NoUseAfterFree | src/aio_engine.h:59-78 | in every run no thread uses the queue after its destruction or an entry after its release, no memory is released twice, and no byte is written to a closed descriptor |
| QueueRuns.CountExact | src/aio_engine.h:59-78 | in every state the count is the owner's reference, the allocated entries and the releases still to be made outside the lock; the queue is destroyed once, when it reaches zero |
| QueueRuns.LinkedExactly | src/aio_engine.h:128-140 | an entry is in the ring, once, exactly while it is QUEUED, or FREED and not yet unlinked, unless growth failed for it |
| PipeRuns.RoundsInOrder | pynng/_base.py:295-353 | in every run the rounds of a pipe are a prefix of pre, post, remove with post optional, a pipe that was closed when its pre callbacks ended gets only its pre round and an overtaken one none, if and only if no connect event of it came after its id was forgotten |
| PipeRuns.RoundsAreExact | pynng/_base.py:295-353 | under the same condition, and only under it, the rounds started are exactly those that the history of events, closes and finished rounds calls for: no round is skipped |
| PipeRuns.ListedExactly | pynng/_base.py:328-353 | a pipe is among the socket's pipes exactly from its ADD_PRE until its remove round is over, unless its removal came first or it was closed in its pre callbacks |
| PipeRuns.RejectedIffClosed | pynng/_base.py:345-352 | a record is rejected if and only if its pipe had been closed when the pre callbacks ended, and such a pipe is not listed |
| PipeRuns.WaitMakesProgress | pynng/_base.py:310-311 | no step adds a running round to a waiting remove event, each end of one takes one away, and at zero the wait is over |
| PipeRuns.RemoveRunsAlone | pynng/_base.py:307-312 | no connect round of a pipe runs while its remove round runs |
| PipeRuns.TablesAgree | pynng/_base.py:299-353 | with the lock free the socket's pipes are exactly the tracked, not rejected ones, with the same Pipe objects, and the removed ids are the most recent 1024 at most |
| PipeRuns.ForgettingTakes1024 | pynng/_base.py:1120-1133 | an id is forgotten only after at least 1024 ids, other than it and pairwise distinct, were remembered after it |
| PipeRuns.LateEventResurrects | pynng/_base.py:313-330 | a run of 1025 removals after which a late ADD_PRE runs callbacks for a pipe that is gone |
| OwnCompletion.OwnCompletionOnly | pynng/_aio.py:462-507 | through completions, cancellations, failed starts and closes, a future is resolved only by its own operation's completion |
| OwnCompletion.PooledHelpersAreIdle | pynng/_base.py:1010-1048 | every pooled helper has no operation in nng, an unlinked entry and no report on its way, and no pool holds more than 32 |
| OwnCompletion.WaitEndsWithOperation | pynng/_aio.py:482-510 | a wait is left only when nng is done with the operation and its completion was delivered, so the next use of the helper overlaps nothing |
| SlotReuse.ForeignIffHijacked | pynng/_aio.py:149-161 | a step makes a foreign completion possible if and only if it hands out such an id |
| SlotReuse.OwnCompletionBeforeWrapAround | pynng/_aio.py:462-507 | the first 2^31 operations of an engine, devices included, are resolved only by their own completions, whatever else happens |
| SlotReuse.DeliveredIsResolved | pynng/_aio.py:143-147 | before the counter wraps around every completion that the loop delivers resolves the future of its own operation, whose task can then be resumed: no completion is lost |
| SlotReuse.WrapAroundMisdelivers | pynng/_aio.py:500-505 | a run of 2^31 + 1 operations, of which every one starts: a resumed task drops the id of another operation, and the operation that gets it next is resolved by the other one's completion |
| DeviceClose.DevicesEndBeforeClose | pynng/_base.py:834-859 | in every run, once close_fn can run on a socket, every device ever started on it is done, and was aborted unless its user had already seen it end |
| DeviceClose.NoStartAfterClose | pynng/_base.py:1269-1277 | a start that comes after the closer took the lock does not launch the device |
| DeviceClose.ListedAiosLive | pynng/_aio.py:835-840 | no aio in a socket's set is freed, and no step uses a freed one |
| DeviceClose.CloseIsNotStuck | pynng/_base.py:851-859 | a closer that holds the lock can go on, or nng has an aio to complete that it aborted |
| DeviceClose.RaisesOnlyForClosed | pynng/_base.py:1269-1277 | a start raises Closed only if one of the device's own sockets is being closed |
| DeviceClose.NextStepUsesLiveAio | pynng/_aio.py:835-866 | whatever a thread does next, the aio that it uses was allocated and is not freed |
| DeviceSection.NoSelfDeadlockIffHandsOff | pynng/_base.py:827-832 | no run deadlocks if and only if finalizers ask |
| DeviceSection.NoFinalizerIsLost | pynng/_aio.py:868-873 | in every run, whether finalizers hand off or not, each one that was called has done its work or is on exactly one thread's stack, once |
| SyncSend.Life | pynng/_base.py:1739-1773 | any sequence of sends and the finalizer: at most one is sent and all later ones are refused, the message is freed at most once and never when nng has it; without interrupts it ends consumed exactly if nng would take it at one of the attempts, and freed exactly if all of them failed |
| AsyncMessages.RunAll | pynng/_aio.py:515-610 | any operations on one helper: every message was taken by nng or freed exactly once, or one Message owns it and neither happened |
| CompletionSpec.DrainAllIsExact | pynng/_aio.py:137-147 | for every batch size the batches concatenate to the slot ids of the whole ring, in completion order and each once, and nothing is left |
| CompletionSpec.FreedEntryIsDrained | src/aio_engine.h:280-307 | freeing an entry that is still linked: the drain loop frees it, reports the other entries as if it had never been there, and leaves them as it would have |
| CompletionSpec.FreedEntryIsClosed | src/aio_engine.h:192-212 | closing the queue frees it too, with one release more, and leaves the other entries as it would have |
| CompletionQueue.NativeQueue.Complete | src/aio_engine.h:116-180 | an IDLE entry of an open queue is appended once, with growth if needed; a failed growth, a closed queue or another state changes nothing else |
| AioEngine.Engine.OnNotify | pynng/_aio.py:128-147 | the ring is empty afterwards, and the futures of everything it held were resolved, in one exact delivery |
| AioEngine.Engine.Register | pynng/_aio.py:149-158 | it ends from every counter value, returns the first id that is not pending, and leaves every pending mapping as it was |
| Rep0Service.RepliesAnswerTheirOwn | pynng/service.py:45-68 | every reply answers its own request if and only if none was made to a request whose context had gone on |
| Rep0Service.RepliesAreSentOnce | pynng/service.py:45-61 | nng sends at most one reply for each request that a context received, whatever the user does |
| Rep0Service.QueueIsBounded | pynng/service.py:252-277 | the queue holds at most one request per worker, and a worker never waits for room in trio's channel |
| Rep0Service.YieldedInOrder | pynng/service.py:344-361 | requests are yielded in the order of the queue, each once |
| Rep0Service.ResumesByItsOwnRequest | pynng/service.py:45-87 | a worker goes on if and only if the user replied to, left or dropped the very request that it waits for, so no late event of another request releases it |
| TlsConfig.AgreementExact | pynng/tls.py:203-229 | after a setter the libraries agree if and only if nobody was left behind |
| TlsConfig.ReplicasAgree | pynng/tls.py:203-229 | after any setters the one other library has the primary's settings, translated by name, or is refused |
| TlsConfig.ReplicasAgreeByName | pynng/tls.py:203-245 | the same setting by setting: a usable library has as many settings as the primary took, each auth mode its own constant of the same name, every other setting equal |
| PoolRace.BoundIffOneThread | pynng/_base.py:1021-1029 | a pool never exceeds 32 if and only if one thread releases to it |
| QueueRuns.KeepsInv | src/aio_engine.h:116-307 | every step of every thread keeps the whole invariant |
| QueueRuns.StrandedIffGrowthFailed | src/aio_engine.h:142-161 | an entry is stranded if and only if a completion met a full ring and a failed allocation |
| QueueRuns.GrowthCanFail | src/aio_engine.h:142-161 | a run whose 257th completion is stranded |
| QueueRuns.NextStepUsesLiveMemory | src/aio_engine.h:116-307 | the absence of use after free said of the steps: whatever a thread does next, the queue or entry that it uses is there and the descriptor that it writes to is open |
| QueueRuns.FreeStepsAreFreeEntry | src/aio_engine.h:280-307 | the steps of entry_free, with no thread between them, free the entry as the queue on values does |
| QueueRuns.SlotSteps | src/aio_engine.h:257-273 | a new entry is IDLE with its slot id, and set_slot_id changes that of one entry only |
| QueueRuns.ReadTakesBytes | pynng/_aio.py:128-136 | the handler's read empties the pipe or takes as many bytes as it asked for |
| QueueRuns.DrainMakesProgress | pynng/_aio.py:137-142 | a batch shortens the ring, or leaves it empty and ends the handler |
| CompletionSpec.LinkKeepsLinked | src/aio_engine.h:128-161 | a completed IDLE entry was not in the ring, and the ring still holds allocated, non-IDLE entries, each once |
| CompletionSpec.UnlinkKeepsLinked | src/aio_engine.h:233-245 | the same after the entry at the tail is unlinked, which is then no longer in the ring |
| CompletionSpec.DrainTakesPrefix | src/aio_engine.h:230-245 | a batch unlinks a prefix of the ring, reports the non-zero slot ids of its not-freed entries in order, frees exactly its FREED entries, makes the others IDLE, and stops early only when it is full |
| CompletionSpec.FlushUnlinksAll | src/aio_engine.h:192-204 | closing unlinks every entry, frees the FREED ones and makes the others IDLE |
| CompletionSpec.DrainFreesMemory | src/aio_engine.h:239-253 | the number of releases that a batch makes is the number of entries whose memory went |
| CompletionSpec.FlushFreesMemory | src/aio_engine.h:195-212 | the same for closing |
| CompletionSpec.SlotsNeedItems | pynng/_aio.py:137-142 | a batch that is not empty shortens the ring, so the drain loop ends |
| CompletionSpec.FreeingChangesOne | src/aio_engine.h:280-307 | freeing an entry changes no other; a linked one is FREED and stays, any other is gone at once |
| CompletionQueue.Index | src/aio_engine.h:147-159 | a cell number modulo the capacity, with at most one wrap |
| CompletionQueue.RingPush | src/aio_engine.h:157-161 | writing at the head appends to what the ring reads as |
| CompletionQueue.RingPop | src/aio_engine.h:196-198 | reading at the tail takes the first entry of what the ring reads as |
| CompletionQueue.RingCopied | src/aio_engine.h:146-153 | a ring copied to the front of larger storage reads the same, from any tail |
| CompletionQueue.NativeQueue.Release | src/aio_engine.h:67-78 | the queue is destroyed exactly when the count reaches zero |
| CompletionQueue.NativeQueue.GrowStorage | src/aio_engine.h:142-154 | the storage doubles and the ring keeps its contents and its order |
| CompletionQueue.NativeQueue.Push | src/aio_engine.h:157-161 | the entry is appended and head stays (tail + count) modulo capacity |
| CompletionQueue.NativeQueue.Pop | src/aio_engine.h:233-245 | the first entry is unlinked, and freed or made IDLE |
| CompletionQueue.NativeQueue.CloseLocked | src/aio_engine.h:192-204 | the ring refines the abstract closing, count of freed entries included |
| CompletionQueue.NativeQueue.QueueClose | src/aio_engine.h:182-213 | the queue is closed and empty, and is destroyed exactly if nothing refers to it |
| CompletionQueue.NativeQueue.QueueFree | src/aio_engine.h:215-219 | the owner's reference is gone; entries that helpers still use keep the queue alive |
| CompletionQueue.NativeQueue.DrainOne | src/aio_engine.h:233-244 | one turn of the loop keeps what the whole batch will be |
| CompletionQueue.NativeQueue.DrainLocked | src/aio_engine.h:230-245 | the ring refines the abstract batch: slot ids, rest of the queue, number of freed entries |
| CompletionQueue.NativeQueue.DrainBatch | src/aio_engine.h:221-255 | the batch in the caller's buffer is the abstract one, for every maximum, and the count of references stays exact |
| CompletionQueue.NativeQueue.EntryNew | src/aio_engine.h:257-267 | a new IDLE entry holds one reference |
| CompletionQueue.NativeQueue.IsIdle | src/aio_engine.h:275-278 | an entry that reads IDLE is not in the ring |
| CompletionQueue.NativeQueue.EntryFree | src/aio_engine.h:280-307 | an IDLE entry's memory and reference go now; any other stays allocated, is FREED and goes when it is unlinked; and the queue goes with the last reference |
| CompletionQueue.QueueNew | src/aio_engine.h:90-113 | an empty open queue of 256 cells with the owner's reference, or none if either allocation fails |
| CompletionQueue.NativeQueue.Insert | src/aio_engine.h:142-161 | growth and push append the entry, or leave the ring as it was if it is full and malloc fails |
| SlotTable.NextCounter | pynng/_aio.py:151-153 | the counter stays in 1..0x7FFFFFFF and goes from its end back to 1 |
| SlotTable.FirstFreeIsUnique | pynng/_aio.py:149-158 | the first free id from a counter value, going around, is one id |
| SlotTable.SomeIdIsFree | pynng/_aio.py:150-155 | fewer than 2^31 - 1 pending operations leave an id free |
| AioEngine.DeliverConcat | pynng/_aio.py:143-147 | delivering two batches is delivering their concatenation |
| AioEngine.DeliverResolvesItsOwn | pynng/_aio.py:143-147 | exactly the reported slots are forgotten, and exactly the pending futures registered under them are resolved |
| AioEngine.DrainTurn | pynng/_aio.py:137-142 | one turn of the loop keeps what the loop will report, and makes the ring shorter or ends it |
| AioEngine.Engine.constructor | pynng/_aio.py:71-90 | no slots, counter zero, an empty queue on the write end |
| AioEngine.Engine.DrainLoop | pynng/_aio.py:137-147 | the loop delivers what draining the whole queue reports |
| AioEngine.Engine.DeliverBatch | pynng/_aio.py:143-147 | the inner loop is the delivery of the batch |
| AioEngine.Engine.Close | pynng/_aio.py:163-198 | the queue is closed before the pipe's ends are, and exactly the pending futures with a slot are cancelled; a second close does nothing |
| OwnCompletion.KeepsInv | pynng/_aio.py:446-507 | every step of helpers, devices, nng, the reader callback and the pools keeps the invariant, unless it hands out an id under which a completion is still to come |
| OwnCompletion.BatchIsSlots | pynng/_aio.py:138-144 | the reports that carry the identity of their operation are exactly the native batch |
| OwnCompletion.ValidIffNoOperation | pynng/_aio.py:446-460 | a helper is usable exactly if it is between operations |
| OwnCompletion.AcquiredIsUsable | pynng/_base.py:1012-1019 | an acquire from a pool that is not empty gets the helper pooled last, and frees none |
| OwnCompletion.ReleasedIsKeptOrFreed | pynng/_base.py:1021-1029 | a released helper is pooled exactly if its pool is open and has room, and is freed otherwise |
| OwnCompletion.ClosedPoolsShrink | pynng/_base.py:1021-1029 | a socket is closed by its close only, and no helper enters a closed pool |
| OwnCompletion.CloseFreesLast | pynng/_base.py:846-849 | each turn of the closing loop frees the helper that was pooled last, with its entry |
| DrainRefinement.DeliversBatch | pynng/_aio.py:143-147 | delivering a batch step by step, with the identity of operations, is the engine's delivery with it erased |
| DrainRefinement.TurnRefinesEngine | pynng/_aio.py:137-147 | one turn of the drain loop leaves queue, slot table and futures as the engine's turn does |
| SlotReuse.HijackIsFatal | pynng/_aio.py:149-161 | handing out an id under which a completion is still to come lets that completion resolve the new operation, which starts at once, with no other operation begun |
| SlotReuse.FirstRoundNeverHijacks | pynng/_aio.py:151-155 | neither before the counter wraps around nor at the wrap-around is an id handed out under which a completion is still to come |
| HelperPool.DropsOnlyUnusable | pynng/_base.py:1012-1019 | the acquire loop passes over unusable helpers only, and stops at the last usable one |
| HelperPool.AcquireKeepsAll | pynng/_base.py:1012-1019 | what an acquire leaves, frees and takes is what the pool held, each helper once |
| HelperPool.Pool.Acquire | pynng/_base.py:1012-1019 | the last usable helper, or none; exactly the unusable ones behind it are freed, in order |
| HelperPool.Pool.Release | pynng/_base.py:1021-1029 | kept exactly if the socket is open, the helper usable and the pool below 32; freed otherwise |
| PoolRace.BoundIsExact | pynng/_base.py:1021-1029 | with n threads a pool never holds more than 32 + n - 1 helpers, and a run holds so many |
| PoolRace.ClosedStaysEmptyIff | pynng/_base.py:846-849 | the pool that a close emptied stays empty if and only if no thread was between its check and its append |
| PoolRace.LateAppend | pynng/_base.py:1021-1029 | a run in which a thread that passed the check before the close leaves a helper in the closed pool |
| PoolRace.PopIsSafeIffOneThread | pynng/_base.py:1012-1017 | a pop never meets an empty list if and only if one thread uses the pool |
| PoolRace.TwoTakersRaise | pynng/_base.py:1012-1017 | a run in which two threads see the one helper of a pool and the second pop fails |
| PipeTable.Dispatcher.Enter | pynng/_base.py:295-334 | the first locked region does to the tables what the step model says, for all three events |
| PipeTable.Dispatcher.WaitOver | pynng/_base.py:310-334 | after the wait the remove round runs unless the pipe was rejected |
| PipeTable.Dispatcher.Leave | pynng/_base.py:339-353 | the last locked region does to the tables what the step model says |
| PipeTable.Dispatcher.AwaitTurn | pynng/_base.py:310-312 | the wait loop goes on at the first wake-up that finds no running callback of another thread, and changes nothing before |
| PipeRuns.KeepsInv | pynng/_base.py:295-353 | every step of every dispatching thread keeps the invariant of every pipe id |
| PipeRuns.LateEventsDropped | pynng/_base.py:305-327 | once a remove event waits, later connect events change nothing |
| PipeRuns.WaitIsNotStuck | pynng/_base.py:310-311 | a waiting remove event can go on, or a running round can end |
| PipeRuns.RemembersAsCalledFor | pynng/_base.py:300-309 | an id enters the remembered ones exactly when its remove event comes before its ADD_POST or after its rejection, and never twice |
| DeviceRegistry.StartDevice | pynng/_base.py:1269-1277 | raises Closed exactly if an owner is closed, and then starts nothing; otherwise every owner knows the aio |
| DeviceRegistry.StopDevice | pynng/_base.py:1280-1284 | no owner knows the aio, and nothing else changed |
| DeviceRegistry.EndDevices | pynng/_base.py:851-859 | every device of the socket is aborted and then awaited, and no wait begins before the abort |
| DeviceRegistry.RunDevice | pynng/nng.py:1111-1127 | for a failed allocation, a closed owner, an interrupt before or after the wait, and a failed device: the aio is freed once, no owner's set holds it, and what was started is over |
| DeviceClose.KeepsInv | pynng/_base.py:823-859 | every step of devices, closers and nng keeps the invariant, also of devices that are given up before they start or after Closed |
| DeviceClose.ClosedWhileRunning | pynng/_base.py:834-859 | a run in which a close ends a device that runs, and the device's user then frees everything |
| DeviceClose.ClosedBeforeStart | pynng/_base.py:1269-1277 | a run in which a start finds its socket closed and raises, and the aio can be freed |
| DeviceSection.KeepsInv | pynng/_base.py:82-93 | sections restore the mark, and the mark covers all lock-held time |
| DeviceSection.NoSelfDeadlock | pynng/_aio.py:868-873 | with finalizers at any point of any thread, no thread waits for a lock that it holds |
| DeviceSection.HolderCanStep | pynng/_base.py:82-93 | the thread that holds the lock is marked and can always move towards its release |
| DeviceSection.BegunAreCalled | pynng/_aio.py:868-873 | the finalizers that NoFinalizerIsLost speaks of are exactly those that the run calls |
| DeviceSection.DoneHaveReturned | pynng/_base.py:827-832 | as many finalizers are done as have returned from their work |
| DeviceSection.WithoutHandOff | pynng/_aio.py:27-33 | a run of one thread that deadlocks if finalizers do not ask |
| SyncSend.Message.Del | pynng/_base.py:2076-2087 | the finalizer frees the message exactly if the Message owns it |
| SyncSend.SocketSend | pynng/_base.py:991-1008 | nng_sendmsg is called once, unless a second send is refused; sent if and only if nng took the message, failed means still owned and sendable, interrupted exactly if a signal arrived, and then given up |
| SyncSend.ContextTry | pynng/_base.py:1752-1765 | what the try block leaves behind, for an interrupt after any library call; without one it is sent if and only if nng takes the message by the end of the wait |
| SyncSend.ContextFinally | pynng/_base.py:1766-1773 | cut short or not, the Message owns only a message that nng did not take and can no longer take |
| SyncSend.ContextSend | pynng/_base.py:1733-1773 | the same for the whole send; interrupted exactly if a signal arrived, otherwise sent if and only if nng takes the message and failed with the Message owned and sendable; a single signal up to the end of the try block leaves the Message with its message unless nng took it |
| AsyncMessages.Helper.SendAndWait | pynng/_aio.py:592-610 | the message ends consumed if nng took it, freed otherwise |
| AsyncMessages.Helper.Asend | pynng/_aio.py:548-579 | the message that it makes ends consumed or freed for every outcome, and the helper ends idle |
| AsyncMessages.Helper.AsendMsg | pynng/_aio.py:581-610 | the Message's message ends consumed or freed, or stays with the Message if the send was refused or the loop is closed |
| AsyncMessages.Helper.ArecvMsg | pynng/_aio.py:515-546 | a delivered message goes to one Message, or is freed if the asyncio task was cancelled |
| AsyncMessages.Helper.Free | pynng/_aio.py:631-644 | a send in flight ends consumed or freed; a message is lost if and only if a receive in flight delivered one |
| AsyncMessages.FreeLosesMessage | pynng/_aio.py:631-644 | a helper freed while a receive delivers leaves a message that nobody owns and nobody freed |
| AsyncMessages.SettledStays | pynng/_aio.py:515-610 | a message that was consumed or freed stays so |
| AsyncMessages.MessagesConserved | pynng/_aio.py:515-610 | over any operations no message loses its fate: what was consumed or freed stays so, and every other one is owned by a Message |
| Rep0Service.KeepsInv | pynng/service.py:234-285 | every step of workers, queue and user keeps the invariant |
| Rep0Service.OneOpenRequest | pynng/service.py:234-250 | a context has at most one request whose event is unset |
| Rep0Service.HeldUntilDropped | pynng/service.py:70-87 | the user has exactly the requests that the iterator returned and that he has not dropped |
| Rep0Service.WorkerEndsIff | pynng/service.py:234-285 | the service stops by its exit only, and a worker ends if and only if its receive found the context closed, it was cancelled, or it was released after the stop |
| Rep0Service.StoppedStaysStopped | pynng/service.py:234-250 | once the service stops no worker comes back to receive |
| Rep0Service.ReplyAfterExitStrays | pynng/service.py:66-68 | a run in which a late reply answers the next requester |
| Rep0Service.RequestObject.Reply | pynng/service.py:45-61 | the first reply sends once and sets the event even if the send fails; a second one raises and sends nothing |
| TlsConfig.TranslateByName | pynng/tls.py:33-37 | translation is defined exactly for the source's values, and goes by name |
| TlsConfig.TranslateRoundTrip | pynng/tls.py:33-37 | between libraries with distinct constants nothing is lost on the way there and back |
| TlsConfig.TranslatesByName | pynng/tls.py:203-214 | what a setter hands to another library is that library's auth mode of the same name, and every other setting unchanged |
| TlsConfig.TranslatesAllByName | pynng/tls.py:203-214 | the same for a sequence of settings, in both directions |
| TlsConfig.AgreesByName | pynng/tls.py:203-229 | libraries agree if and only if their settings are the same by name, one by one |
| TlsConfig.PrimaryTakesAll | pynng/tls.py:203-205 | the primary has exactly the settings that its own library took, in order |
| TlsConfig.RaisesIff | pynng/tls.py:205-229 | the loop raises if and only if some usable library fails or lacks the constant |
| TlsConfig.MissedSetting | pynng/tls.py:203-229 | a usable library that missed a setting no longer agrees |
| TlsConfig.OneLibraryKeepsUp | pynng/tls.py:203-229 | with one other library and a known auth mode nobody is left behind |
| TlsConfig.UnnamedModeLeavesBehind | pynng/tls.py:203-214 | an accepted auth mode without a name: the setter raises outside the try, and the other library stays usable with other settings |
| TlsConfig.ThirdLibraryLeftBehind | pynng/tls.py:205-229 | three libraries, the second fails: the third stays usable without the setting |
| TlsConfig.TLSConfig.Allocate | pynng/tls.py:122-146 | one configuration per library with TLS, asked for with the primary's mode translated by name, each owned once; it raises exactly for an unknown mode or an error other than NNG_ENOTSUP, and keeps what was allocated |
| TlsConfig.TLSConfig.AddAlt | pynng/tls.py:135-146 | the library is usable with its configuration, or unavailable without one |
| TlsConfig.TLSConfig.ApplyEverywhere | pynng/tls.py:203-229 | the object does what the replica model says, raises exactly if a library refused or lacks the constant, and keeps agreement exactly if nobody was left behind |
| TlsConfig.TLSConfig.ApplyToAlts | pynng/tls.py:205-229 | its loop stops at the first failure, with the libraries before it changed and those after it not |
| TlsConfig.TLSConfig.ConfigFor | pynng/tls.py:231-245 | a configuration that is returned belongs to the library asked for, is usable, and has the primary's settings by name as long as the libraries agree; a library that fell behind, or came later, raises |
| TlsConfig.TLSConfig.Del | pynng/tls.py:247-268 | every owned configuration, the diverged ones too, is freed, each once |

## Left out

- nng itself, CFFI, transports, real TLS, and dialers and listeners: they are the environment.
- C11 memory ordering and the Windows and POSIX lock variants: every access to the ring is under its mutex.
- Overflow of the ring's capacity in `size_t`: the model's capacity is unbounded.
- The memory of an entry: entries are values in a map from addresses, so `heap` says which are allocated.
- AioEngine.Engine.constructor: does not model a failing pipe, queue or `add_reader`, after which the original closes the engine and raises.
- OwnCompletion.OwnCompletionOnly: requires that no operation gets an id under which a completion is still to come; SlotReuse.ForeignIffHijacked shows that this is exact, one step at a time. It does not model `engine.close()` on a live loop, `GeneratorExit`, or a `KeyboardInterrupt` inside a wait.
- OwnCompletion.PooledHelpersAreIdle: under the same condition, and with one thread that releases to each pool; the look and the pop of an acquire are one step there. PoolRace says what several threads do.
- OwnCompletion.WaitEndsWithOperation: under the same condition as OwnCompletion.OwnCompletionOnly.
- SlotReuse.HijackIsFatal: the nng completions, the reader callback and the tasks run in the order that its run names; which order a scheduler would choose is not modelled.
- PipeTable.Dispatcher.WaitOver: is the end of the wait only; PipeTable.Dispatcher.AwaitTurn is the loop. `running` is a multiset, because only membership and removal are used.
- The exceptions and return values of pipe callbacks, which the dispatcher logs and ignores.
- DeviceClose.DevicesEndBeforeClose: bare `nng_socket` handles passed to `device` have no owner and are not tracked by close.
- DeviceRegistry.RunDevice: does not model an interrupt between the return of `_start_device` and the inner `try`, or inside `_start_device`.
- SyncSend.Life: an interrupt can leak a message (a comment in the source says so), so without the no-interrupt condition only the absence of double frees is stated. Interrupts between two bytecodes that make no library call are not modelled.
- AsyncMessages.RunAll: operations of one helper run one after the other, as OwnCompletion.WaitEndsWithOperation and the pools let them; a cancellation is an outcome of the wait.
- AsyncMessages.MessagesConserved: speaks of the fates; that they count the calls is AsyncMessages.RunAll.
- Rep0Service.KeepsInv: the worker coroutines are steps and not loops; the sentinel, timeouts of a receive, logging, and setting up and tearing down the socket are not modelled.
- TlsConfig.ReplicasAgree: agreement is not promised for three or more libraries or an unknown auth mode; TlsConfig.AgreementExact says what happens then.
- The argument checks and default setters of `TLSConfig.__init__`.
- The synchronous sliced receive, the trio and asyncio fallback helpers, `PipeEventStream`, fork checks, option descriptors, address formatting, the exception map and statistics: wrappers, or easy members.
