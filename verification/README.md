# Verified model of the MuduoCpp11 reactor

This project models the event-driven TCP server core of MuduoCpp11 in Dafny 4.11 and proves what its
protocols keep: byte buffers, channel registration with epoll, the life and output path of a
connection, the task queue of an event loop with its eventfd wakeup, and the teardown of connections
across loops. `dafny verify dfyconfig.toml` checks all of it.

## How it is organised

The mutable objects of the program are classes, and each method's contract equates the object's view
before and after with a specification function. The specification functions are then the steps of
state machines over plain values, about which the theorems are proved for every run.

| file | objects | machines and theorems |
|---|---|---|
| `Prelude.dfy`, `Tasks.dfy` | | bytes, the library's own functors, `StateE` |
| `Buffer.dfy` | `Buffer` over an `array` | queue refinement and memory bound of whole runs; `writableBytes` as written |
| `Registration.dfy` | | one channel's mask, `index_`, map entry and kernel entry |
| `EpollPoller.dfy` | `Channel`, `EpollPoller` | every channel of a poller moves as `Registration` says, and no other with it |
| `Connection.dfy`, `ConnectionProofs.dfy` | | the connection machine: conservation, half-close, notices, lifecycle |
| `ConnectionLaws.dfy` | | what each entry point does in bytes, event bits, half-closes and callbacks, and the callbacks of a whole life |
| `Dispatch.dfy` | | the event tests of `handleEventWithGuard`, whole sessions of events |
| `TcpConnection.dfy` | `TcpConnection`, `Socket` | every method is a step of the connection machine |
| `LoopMachine.dfy` | | one loop thread interleaved with any number of others |
| `EventLoop.dfy` | `EventLoop` | every method is a run of the loop machine |
| `Delivery.dfy` | | a connection behind its loop's queue: order of sends from other threads |
| `Teardown.dfy`, `TeardownProofs.dfy` | | any number of loops, connections, descriptors and their owners |
| `TeardownQueues.dfy`, `TeardownLifetime.dfy` | | how the queues of all loops move; when a closed connection is freed, and which functors outlive it |
| `TeardownWitness.dfy` | | runs that free a connection on one loop and across two, and a send that comes after it |
| `Combined.dfy` | | the protocol and all its connections together: every connection lives a legal life |
| `EventLoopThreadPool.dfy` | `EventLoopThreadPool` | round robin |
| `TcpServer.dfy` | `TcpServer` | connection names, the connection map |

A specification function is tied to what it is for, not only to the method that computes it: laws in
plain terms (`ConnectionLaws`, `Dispatch.TestsByBits`, `Registration.CallReachesKernel`,
`Buffers.ReadTakes`, `ConnectionNames.DecimalReads`, ...) say how much a write or a read moves, which bits
close or read, what reaches the kernel and which callbacks are made, without naming those functions.

System calls are stubs with the kernel's answer as a parameter: `write` takes any prefix or fails, and
answers EPIPE once the write side is shut; `readv` fills the first vector before the second;
`epoll_ctl` refuses to add a present descriptor and to modify or delete an absent one; `epoll_wait`
names registered descriptors, once each; reading an eventfd clears its counter, and a write that
would overflow it fails. User callbacks are arbitrary sequences of `send`, `shutdown` and `retrieve`.

## Where the source misses its own intent

Where the code as written fails, the model keeps that version, with an input on which it fails and the
exact condition under which it does not.

- `Buffer.h:25-27` counts writable bytes from the read index, against the layout comment in
  `Buffer.h:10-13` and the test in `makeSpace`. The class uses `size - writeIndex_`. As written,
  `append` overruns the array for some length exactly when something is waiting to be read,
  and `readFd` overruns a fresh buffer on 1025 bytes (`BufferAsWritten.AppendAsWrittenOverruns`,
  `ReadAsWrittenOverruns` and the two `FitsIff` lemmas).
- `TcpConnection.cpp:41` binds the error callback to `handleClose`, which has no guard on the state.
  The model keeps that. A connection's run stays within the library's assumptions exactly when no single
  report holds two close triggers; with two, the user is told twice and the descriptor goes back into
  the kernel with an empty mask (`Dispatch.SessionLegalIff`, `Dispatch.ResetClosesTwice`). The teardown
  protocol assumes one close per connection.
- `TcpConnection.cpp:134` changes the state before the half-close functor runs. A drain in between
  shuts the write side early, so `::shutdown` is called twice exactly when that happens, and a send
  queued before it can be lost (`ConnectionProofs.ForeignShutdownTwice`, `ForeignShutdownTwiceIffDrained`,
  `ForeignSendLostBehindDrain`). With loop-thread callers the half-close is the last thing on the wire.
- `TcpConnection.cpp:170` leaves the events of a half-closed connection on, so the assertion in
  `Channel::remove` holds exactly for established or closed connections
  (`ConnectionProofs.DestroyAssertsFail`, `DestroyAssertsIff`). Only `~TcpServer` gets there.
- `TcpConnection.cpp:57` and `TcpConnection.cpp:135` bind a plain `this`. The functor of a sender that is
  overtaken by the whole teardown runs on a freed connection. This happens exactly when the connection's
  destruction had run, or was in the running batch, as the functor was queued, and the server's loop has
  since finished the round of the removal
  (`TeardownWitness.LateSendFindsNoConnection`, `TeardownLifetimes.QueuedAliveIff`).
- `EventLoop.cpp:74` clears `quit_`, and `EventLoop.cpp:127` writes no wakeup for a functor that the
  loop thread queues before `loop()`. Nothing is lost exactly when neither has happened by then
  (`LoopMachine.QuitBeforeLoopIsLost`, `PushBeforeLoopIsNotWoken`, `NothingLostIff`).
- `EventLoop.cpp:149` sets `callingPendingFunctors_` and nothing clears it. The model keeps that; the
  wakeup theorem covers it.
- `EventLoopThreadPool.cpp:62` wraps with `>`. The class wraps with `>=`; as written, call k reads past
  the vector exactly when k mod (n + 1) is n (`ThreadPools.AsWrittenInBoundsIff`: first for k = n).
- `TcpConnection.cpp:57` passes the payload as a raw pointer to another thread; the model passes it by
  value. `TcpConnection.cpp:133-134` tests and sets the state in two operations; the model does it in
  one step. `EventLoopThreadPool.h:17` assigns the parameter to itself, so as written no pool ever has a
  thread; the model hands the number to `Start`. Slips that do not compile (`EventLoop.cpp:71-74`,
  `EpollPoller.cpp:35`, `EpollPoller.cpp:63`) are read as intended.

## Model

| member | source | states |
|---|---|---|
| Buffers.Buffer.constructor | Buffer.h:17-21 | A new buffer is empty, with 8 bytes in front of both indices and the given room behind them. |
| Buffers.Buffer.Retrieve | Buffer.h:38-45 | Drops exactly the first `len` readable bytes, or all of them and then resets both indices; the array is kept. |
| Buffers.Buffer.RetrieveAsString | Buffer.h:51-55 | Returns the `len` bytes behind the read index; what is returned followed by what stays readable is what was readable exactly when `len` is within the readable bytes, and otherwise it starts with them. |
| Buffers.Buffer.MakeSpace | Buffer.h:87-102 | Resizing and compaction both leave the readable bytes unchanged and give the layout of `MadeSpace`. |
| Buffers.Buffer.EnsureWritableBytes | Buffer.h:62-66 | Afterwards `len` bytes fit behind the write index, with the contents unchanged; nothing moves when they fitted before, the window moves to the front when all free space together is enough, and only otherwise is the array replaced. |
| Buffers.Buffer.Append | Buffer.h:69-73 | Appends exactly the given bytes after the readable ones: in place, after joining the free space, or into a new array that is then exactly full, in that order of preference. |
| Buffers.Buffer.ReadFd | Buffer.cpp:12-41 | Appends exactly the n bytes delivered, in order, in every case; takes an offer of up to 64 KiB whole, however full the buffer is, and leaves something behind only when tail and spill area are full; an error changes nothing. |
| Buffers.ReadTakes | Buffer.cpp:24-31 | How much one read takes of an offer: all of it up to 65536 bytes, something of anything, and exactly the room of the vectors otherwise. |
| BufferRuns.QueueRefined | Buffer.h:37-73 | Over any run of appends, reads and retrieves, everything taken followed by what is readable is what was readable followed by everything put in. |
| BufferRuns.SpaceBounded | Buffer.h:87-102 | If no more than M bytes are ever readable and no append exceeds L, the array never exceeds the larger of its first size and M + L + 7. |
| BufferRuns.SpaceBoundAttained | Buffer.h:87-102 | A three-step run for every L of at least 2 that reaches the bound exactly. |
| BufferAsWritten.AppendAsWrittenFitsIff | Buffer.h:25-27 | The source's `append` of a given length stays inside the array exactly in three cases. |
| BufferAsWritten.AppendAsWrittenSafeIffEmpty | Buffer.h:25-27 | It is safe for every length exactly when nothing is waiting to be read. |
| BufferAsWritten.AppendAsWrittenOverruns | Buffer.h:62-73 | A default buffer holding 1000 bytes overruns on the next 100. |
| BufferAsWritten.ReadAsWrittenFitsIff | Buffer.cpp:24-39 | The source's `readFd` of n bytes stays inside the array iff the real tail holds them, or nothing was waiting and the spill is long enough to rebuild the array. |
| BufferAsWritten.ReadAsWrittenOverruns | Buffer.cpp:24-39 | A fresh default buffer overruns on a delivery of 1025 bytes. |
| Registration.RunKeepsConsistent | Channel.h:38-42 | After any sequence of enable, disable and remove calls that trips no assertion: `kAdded` iff in the kernel with mask `events_`, `kNew` iff not in `channels_`, otherwise no events, and no `epoll_ctl` refused. |
| Registration.CallReachesKernel | Channel.h:38-42 | Each call by its event bits: which bits it sets or clears, that any non-empty mask reaches the kernel as it is, and when `remove` trips its assertions. |
| Registration.KernelRefusesIff | EpollPoller.cpp:59-74 | `epoll_ctl` refuses exactly an add of a present descriptor and a change or removal of an absent one. |
| Registration.DisableAllTwiceReAdds | EpollPoller.cpp:39-54 | `disableAll` on an added channel removes it from the kernel; on any other it adds the descriptor with an empty mask. |
| Pollers.EpollPoller.UpdateChannel | EpollPoller.cpp:35-56 | Moves this channel's registration as specified and touches no other descriptor's map or kernel entry. |
| Pollers.EpollPoller.RemoveChannel | EpollPoller.cpp:76-88 | Takes this channel out of the map and out of the kernel, and nothing else. |
| Pollers.EpollPoller.EpollCtl | EpollPoller.cpp:59-74 | The kernel stub: refused calls are counted and change nothing. |
| Pollers.EpollPoller.Poll | EpollPoller.cpp:91-131 | Every active channel is the one mapped under its own descriptor (the debug assertions) and carries the reported events, no other channel is touched, and the event list doubles exactly when it was full. |
| Pollers.EpollPoller.KernelIsTheEventMap | EpollPoller.cpp:35-56 | For every descriptor and non-empty mask, the kernel has that interest iff a known channel with that descriptor has those events. |
| Pollers.Channel.constructor | Channel.cpp:10-19 | A channel for a descriptor no live channel uses is new, unmapped and not in the kernel. |
| Pollers.Channel.Destroy | Channel.cpp:20-26 | Under its assertions the channel leaves no trace in the poller, all others stay as they were, and the descriptor may be used again. |
| Pollers.Channel.EnableWriting | Channel.h:40 | Adds the write events to the mask, registers it, and keeps every other channel and the poller's invariant. |
| Pollers.Channel.Remove | Channel.cpp:41-45 | With no events and a mapped channel, afterwards the destructor's assertions hold and all other channels are as before. |
| ConnectionProofs.ByteStreamConserved | TcpConnection.cpp:66-129 | Over every run, with any partial writes and failures, the bytes the kernel accepted followed by the pending ones are the payloads not dropped, in execution order. |
| ConnectionProofs.StepConserves | TcpConnection.cpp:205-245 | The same for one step, `handleWrite` included. |
| ConnectionProofs.InputConserved | TcpConnection.cpp:180-198 | What the user consumed followed by the input buffer is everything that arrived. |
| ConnectionProofs.RunKeepsInv | TcpConnection.cpp:66-257 | Registration, output buffer, half-close and state stay consistent over every legal run. |
| ConnectionProofs.InterestFollowsPending | TcpConnection.cpp:110-128 | In every reachable open state the kernel mask is EPOLLIN and EPOLLPRI, with EPOLLOUT iff output is pending; after a close nothing is registered; no `epoll_ctl` is ever refused. |
| ConnectionProofs.NeverShutWhilePending | TcpConnection.cpp:140-150 | No step shuts the write side of a connection that is up while output is pending. |
| ConnectionProofs.HalfCloseIsLast | TcpConnection.cpp:132-150 | With loop-thread callers: at most one half-close, done as soon as nothing is pending; at it every kept payload has reached the kernel; no byte follows. |
| ConnectionProofs.ForeignShutdownTwiceIffDrained | TcpConnection.cpp:132-137 | Whatever legally happens between the state change of a `shutdown` from another thread and its functor, closing and destruction included: after the functor `::shutdown` has been called twice iff the buffer drained in between, and not at all iff output is still pending. |
| ConnectionProofs.ForeignShutdownTwice | TcpConnection.cpp:132-150 | A legal run in which it is called twice. |
| ConnectionProofs.ForeignSendLostBehindDrain | TcpConnection.cpp:52-60 | A legal run in which a payload queued before the half-close functor is lost. |
| ConnectionProofs.QueuedSendKeptIff | TcpConnection.cpp:72-103 | A queued payload survives iff the connection is up and either output is waiting or the write side is open and the kernel does not break. |
| ConnectionProofs.HighWaterIffCrossing | TcpConnection.cpp:112-121 | A step queues a high-water notice iff it carries the buffer from below the mark to it or beyond; the notice reports the new length. |
| ConnectionProofs.HighWaterNeedsDrop | TcpConnection.cpp:112-121 | Between two queued high-water notices the buffer went below the mark again. |
| ConnectionProofs.CompleteOnlyWhenDrained | TcpConnection.cpp:83-92 | Write-complete notices are queued only with nothing pending, and by every step that moves bytes and leaves nothing pending. |
| ConnectionProofs.LifecycleComplete | TcpConnection.cpp:152-177 | From creation to removal: exactly one up, one down and one close request, and a destructible channel. |
| ConnectionProofs.PhaseOnlyAdvances | TcpConnection.h:56 | The state only moves forward over legal runs. |
| ConnectionProofs.DestroyAssertsIff | TcpConnection.cpp:169-177 | The assertions reached by `connectDestroyed` hold iff the connection is established or closed and still mapped. |
| ConnectionProofs.DestroyAssertsFail | TcpConnection.cpp:169-177 | On a half-closed connection they fail. |
| ConnectionProofs.AtMostOneNotice | TcpConnection.cpp:83-122 | One call queues at most one functor, a notice of this connection, and only while it is up. |
| ConnectionLaws.WriteMakesProgress | TcpConnection.cpp:205-245 | `handleWrite` offers the kernel everything pending: an answer of k moves exactly k bytes, and one of all of it empties the buffer, ends EPOLLOUT, queues the completion and carries out a half-close. |
| ConnectionLaws.WriteElseNothing | TcpConnection.cpp:230-244 | A failed write, and an EPOLLOUT with nothing pending or after a close, change nothing. |
| ConnectionLaws.SendMakesProgress | TcpConnection.cpp:80-128 | With nothing pending the whole payload is offered at once: what the kernel takes is on the wire, the rest waits under EPOLLOUT, and taking all of it queues the completion. |
| ConnectionLaws.SendBehindPending | TcpConnection.cpp:80-128 | Behind pending output a payload is buffered whole. |
| ConnectionLaws.SendThatFails | TcpConnection.cpp:93-102 | A failed direct write loses the payload on EPIPE, ECONNRESET or a shut write side, and otherwise buffers all of it. |
| ConnectionLaws.SendOnlyWhenUp | TcpConnection.cpp:52-75 | `send` acts only in `kConnected`; a queued send does nothing once disconnected or once the write side is shut. |
| ConnectionLaws.ShutdownEffects | TcpConnection.cpp:132-150 | `shutdown` acts only in `kConnected`; it half-closes at once iff nothing is pending, and so does its functor. |
| ConnectionLaws.ShutdownIsCarriedOut | TcpConnection.cpp:132-150 | After the functor of a `shutdown` from another thread, at every later moment at which the connection is up, the write side is shut iff nothing is pending. |
| ConnectionLaws.ReadEffects | TcpConnection.cpp:180-198 | Received bytes are appended and reported once, an error changes nothing, the end of the stream is a close. |
| ConnectionLaws.CloseEffects | TcpConnection.cpp:248-257 | New state, out of the kernel, the down callback and then the close request; buffers stay. |
| ConnectionLaws.EstablishEffects | TcpConnection.cpp:153-166 | Connected, reading, the up callback, nothing else. |
| ConnectionLaws.DestroyEffects | TcpConnection.cpp:169-177 | Out of poller and kernel; the user is told only of a connection that was still up, the server never. |
| ConnectionLaws.EveryReceiptIsReported | TcpConnection.cpp:153-257 | Over a legal run the callbacks are exactly those that its calls and receipts stand for, in order. |
| ConnectionLaws.CallbacksInOrder | TcpConnection.cpp:153-257 | Up, messages, down with the close request right behind it, and then only messages of the same report. |
| Dispatch.EventClosesPerTrigger | Channel.cpp:59-76 | One report closes an open connection once per close trigger; it is legal iff there is at most one; it leaves an empty-mask kernel entry iff there are two. |
| Dispatch.TestsByBits | Channel.cpp:59-76 | The calls of one report by its bits: HUP without IN closes, ERR closes, IN, PRI or RDHUP reads and runs the user's calls, OUT writes, in this order. |
| Dispatch.EventClosesIff | Channel.cpp:59-76 | A report closes an open connection iff it has HUP without IN, or ERR, or a read bit at the end of the stream. |
| Dispatch.EventDelivers | Channel.cpp:59-76 | A report that closes nothing appends and reports exactly the bytes received, runs the user's calls, then writes. |
| Dispatch.EventKeepsInv | Channel.cpp:59-76 | A report with at most one close trigger keeps registration, buffer and state consistent. |
| Dispatch.SessionLegalIff | Channel.cpp:59-76 | A connection's whole run, with sends, half-closes, queued functors and callbacks between the reports, is legal iff no report holds two close triggers. |
| Dispatch.ResetClosesTwice | TcpConnection.cpp:38-41 | EPOLLERR with EPOLLHUP closes twice. |
| TcpConnections.TcpConnection.constructor | TcpConnection.cpp:22-45 | A connection starts in `kConnecting` with empty buffers and an unregistered channel of its loop's poller. |
| TcpConnections.TcpConnection.Destroy | TcpConnection.cpp:47-49 | A removed connection's channel goes with it, and its descriptor is free for another. |
| TcpConnections.TcpConnection.SendInLoop | TcpConnection.cpp:66-129 | The object's whole view changes as the machine's step, over the real buffer, channel, poller, socket and loop. |
| TcpConnections.TcpConnection.Send | TcpConnection.cpp:52-60 | On the loop thread: sends only in `kConnected`. |
| TcpConnections.TcpConnection.SendElsewhere | TcpConnection.cpp:52-60 | On another thread: queues the payload iff `kConnected`, by a push and an eventfd write of the machine; else nothing. |
| TcpConnections.TcpConnection.Shutdown | TcpConnection.cpp:132-137 | On the loop thread: state change and half-close together. |
| TcpConnections.TcpConnection.ShutdownElsewhere | TcpConnection.cpp:132-137 | On another thread: the state changes at once, the half-close is queued and the loop is woken. |
| TcpConnections.TcpConnection.ShutdownInLoop | TcpConnection.cpp:140-150 | Half-closes iff no write interest is set. |
| TcpConnections.TcpConnection.HandleWrite | TcpConnection.cpp:205-245 | The object moves as `ConnectionLaws.WriteMakesProgress` says, over the real buffer, channel, socket and loop, and what it queues is covered by a wakeup. |
| TcpConnections.TcpConnection.HandleRead | TcpConnection.cpp:180-198 | Appends what arrived, whole up to 64 KiB, and reports a message; closes iff the offer is the end of the stream; ignores an error. |
| TcpConnections.TcpConnection.HandleClose | TcpConnection.cpp:248-257 | New state, no interest, one down callback, then the close callback; no guard. |
| TcpConnections.TcpConnection.ConnectEstablished | TcpConnection.cpp:153-166 | State, tie, read interest and up callback, then the user's calls; the channel is tied from then on. |
| TcpConnections.TcpConnection.ConnectDestroyed | TcpConnection.cpp:169-177 | Under the removal assertions, leaves a destructible channel. |
| TcpConnections.TcpConnection.HandleEvent | Channel.cpp:47-76 | A connection that was established and cannot be locked is left as it is, as is its loop; otherwise the whole dispatch of the polled events equals the machine's run of it (`Dispatch.TestsByBits`), with the user's calls inside. |
| LoopMachine.ExactlyOnceInOrder | EventLoop.cpp:116-158 | For any interleaving, functors run, rest of batch and queue make up the history of pushes; what ran is a prefix of it. |
| LoopMachine.RoundRunsSwappedBatch | EventLoop.cpp:142-158 | A round runs exactly what was queued at its swap, whatever is pushed meanwhile. |
| LoopMachine.RoundKeepsTotal | EventLoop.cpp:155-157 | During a round, what ran and what is left of the batch stay the same together. |
| LoopMachine.RunKeepsWake | EventLoop.cpp:70-140 | After entry: a loop about to wait with work or a quit has a readable eventfd or a write on its way. |
| LoopMachine.NothingLostIff | EventLoop.cpp:70-88 | No run after `loop()` is entered loses a wakeup or a quit iff no quit came before and nothing is queued without a wakeup. |
| LoopMachine.WakeupIsUsedUp | EventLoop.cpp:52-61 | After the eventfd is read the wakeup channel is not reported again until somebody queues or quits. |
| LoopMachine.QuitWithinOnePass | EventLoop.cpp:76-88 | Once the flag is set at most the pass in progress is finished; at its test the loop stops and runs nothing more. |
| LoopMachine.PushBeforeLoopIsNotWoken | EventLoop.cpp:127-129 | The loop thread's own push before `loop()` leaves it waiting with work. |
| LoopMachine.QuitBeforeLoopIsLost | EventLoop.cpp:70-105 | A quit before `loop()` is forgotten. |
| EventLoops.EventLoop.QueueInLoop | EventLoop.cpp:116-130 | Appends to the queue, writes the eventfd for other threads and once functors have run; a run of the machine. |
| EventLoops.EventLoop.RunInLoop | EventLoop.cpp:108-114 | On the loop thread the functor's own calls happen at once and it is not queued; otherwise it is queued and the loop woken. |
| EventLoops.EventLoop.Quit | EventLoop.cpp:100-105 | Sets the flag, and wakes the loop from another thread. |
| EventLoops.EventLoop.HandleRead | EventLoop.cpp:52-61 | Clears the eventfd. |
| EventLoops.EventLoop.Wakeup | EventLoop.cpp:133-140 | Adds one to the eventfd unless it is full. |
| EventLoops.EventLoop.DoPendingFunctors | EventLoop.cpp:142-158 | Runs exactly the queued functors in order; the new queue is exactly what they and other threads queued meanwhile. |
| EventLoops.EventLoop.Iterate | EventLoop.cpp:76-87 | One pass runs what was queued before it, while it waited and while it handled channels, in that order; what is queued during the round stays; a quit asked for at any moment is seen. |
| EventLoops.EventLoop.Loop | EventLoop.cpp:70-88 | A run of the machine from its entry; ends early only on a quit; everything queued was run in order except what is still queued, and that has a wakeup pending, and no quit is lost, unless something came too early for `loop()`. |
| Delivery.StreamFollowsLockOrder | TcpConnection.cpp:52-60 | Payloads from other threads enter the byte stream in the order in which the queue's lock was taken. |
| Delivery.UndroppedStreamIsPrefix | EventLoop.cpp:116-120 | When none was dropped, the stream is a prefix of everything queued for the connection. |
| Delivery.EachThreadInOwnOrder | EventLoop.cpp:108-130 | What was run of a thread's sends is a prefix of that thread's own order. |
| TeardownProofs.EveryPollerPointerOwned | TcpServer.cpp:104-139 | In every reachable state each channel pointer in a poller's map or kernel set is a live connection's, under its own descriptor. |
| TeardownProofs.UnownedIsDestructible | Channel.cpp:20-26 | When nothing owns a connection any more, no poller knows its channel. |
| TeardownProofs.ActiveIsAlive | EventLoop.cpp:80-83 | Every channel still to be dispatched is mapped and its connection alive. |
| TeardownProofs.HandleKeepsInv | Channel.cpp:47-57 | The guard of `handleEvent` always succeeds for a dispatched connection. |
| TeardownProofs.FunctorsMeetTheirAssertions | TcpConnection.cpp:153-177 | When an establishment, removal or destruction runs, what it asserts holds, and its `epoll_ctl` is legal. |
| TeardownProofs.DestroyedExactlyOnce | TcpServer.cpp:132-139 | After a destruction no loop has another protocol functor for that connection. |
| TeardownProofs.SecondCloseQueuesTwice | TcpConnection.cpp:248-257 | A second close of the same connection queues its removal or destruction twice, and the second destruction meets a channel that is already new. |
| TeardownProofs.AcceptIsFresh | TcpServer.cpp:80-105 | A new connection's id is unused and its descriptor is in no poller. |
| TeardownQueues.NothingLeavesDuringDispatch | EventLoop.cpp:76-87 | Until the functor phase, no mapped channel of the loop leaves its poller, whatever closes. |
| TeardownQueues.StepMovesRecord | TcpConnection.cpp:152-177 | No step moves a connection to another loop or descriptor or back in its states; it is gone only by the destruction that its own loop runs. |
| TeardownQueues.StepKeepsQueueInv | TcpServer.cpp:122-138 | Every queued functor is on its own loop and finds its connection far enough along. |
| TeardownQueues.BoundFunctorKeepsAlive | TcpConnection.cpp:83-120 | Every functor but a queued send or half-close keeps its connection alive until its batch is cleared. |
| TeardownQueues.GoneAliveIff | TcpServer.cpp:132-139 | A destroyed connection is owned exactly by its destruction functor, until that batch is cleared, and by its removal, until that of the server's loop is. |
| TeardownLifetimes.DestroyedByEndOfRound | TcpServer.cpp:137-138 | A destruction in the batch of a round has happened when the round ends, whatever other loops do. |
| TeardownLifetimes.ClosedIsFreed | TcpServer.cpp:128-139 | After a close, one whole round of the server's loop and then one of the connection's own loop leave it without owner, whatever else happens before, between and during them. |
| TeardownLifetimes.QueuedAliveIff | TcpConnection.cpp:52-60 | When a functor's turn comes, its connection still exists iff at the push its destruction had neither run nor entered the running batch, or its removal is still in the batch of the server's loop. |
| TeardownWitness.SomeRunFreesAConnection | TcpServer.cpp:80-139 | Some run takes a connection from accept to having no owner. |
| TeardownWitness.SomeRunCrossesLoops | TcpServer.cpp:80-139 | So does one on an I/O loop of its own: established there by a queued functor, removed on the server's loop, destroyed on its own. |
| TeardownWitness.LateSendFindsNoConnection | TcpConnection.cpp:52-60 | A send queued after that is run on a connection that nothing owns. |
| Combined.StepsMatchEffects | TcpConnection.cpp:153-257 | Every entry point of a connection moves its state and `index_` as the protocol's effects do, the close at end of stream included; map and kernel follow `index_`. |
| Combined.RunFollowsProtocol | TcpServer.cpp:80-139 | With all connections run along, the server's part is a run of the teardown protocol. |
| Combined.ProtocolIsCovered | TcpServer.cpp:80-139 | Every protocol step can be taken in the combined system, with any answer of the kernel. |
| Combined.EveryLifeIsLegal | TcpConnection.cpp:52-257 | In every reachable state of that system, each connection is what a legal run made of a fresh one, and the server's record of it is its own. |
| Combined.EveryLifeIsComplete | TcpConnection.cpp:152-177 | So each connection was reported up and down at most once, exactly once when destroyed, and its bytes are the payloads not dropped. |
| ThreadPools.RoundRobin | EventLoopThreadPool.cpp:57-67 | With the repaired test, call k is answered with loop k mod n. |
| ThreadPools.DealtFairly | EventLoopThreadPool.cpp:57-67 | After any number of calls two loops differ by at most one. |
| ThreadPools.AsWrittenInBoundsIff | EventLoopThreadPool.cpp:62-64 | As written, call k is in bounds iff k mod (n + 1) is not n. |
| ThreadPools.EventLoopThreadPool.GetNextLoop | EventLoopThreadPool.cpp:57-67 | Returns the base loop with no threads, else the loop whose turn it is. |
| ThreadPools.EventLoopThreadPool.Start | EventLoopThreadPool.cpp:22-46 | Makes one new loop with its own poller for each thread, in order, and calls the init callback once on each, or on the base loop when there are no threads. |
| ConnectionNames.NamesDistinctIff | TcpServer.cpp:84-88 | Names of different positive int ids differ iff the printed address has at most 51 characters. |
| ConnectionNames.DecimalReads | TcpServer.cpp:84-88 | The printed id reads back as the id, in digits only and without leading zero. |
| ConnectionNames.NameShape | TcpServer.cpp:84-88 | Up to 51 characters of address the name is server, dash, address, hash and id, uncut. |
| TcpServers.TcpServer.NewConnection | TcpServer.cpp:80-125 | Makes a connection for the descriptor on the next loop, adds it under an unused name, and establishes it there: inline on the server's loop, up callback included, queued with a wakeup otherwise. |
| TcpServers.TcpServer.RemoveConnection | TcpServer.cpp:128-130 | Removes at once on the server's thread; otherwise queues the removal on its loop and wakes it. Either way the loops move by runs of the machine. |
| TcpServers.TcpServer.RemoveConnectionInLoop | TcpServer.cpp:132-139 | Erases this connection's entry only, and queues its destruction on its own loop by a run of the machine, which wakes another loop for it. |

## Left out

- `~TcpServer` and the order of object destruction across threads: the source does not keep the teardown invariant there.
- EventLoopThread and Thread: start and join, and the handshake that reports the new loop.
- Acceptor, Socket options, InetAddress, Logger, Timestamp, CurrentThread and DefaultPoller: plumbing and formatting.
- The acceptor's and the wakeup channel's own entries in the pollers of the teardown protocol, which no connection shares.
- Timeouts and the passage of time: an empty poll result is an ordinary one.
- Data races on the connection's `atomic_int` beyond the interleaving of the modelled steps.
- Overflow of `nextConnId_` past the positive int range, and of `size_t` sums of buffer lengths.
- Closing twice in the teardown protocol: it runs one close per connection, the condition of `Dispatch.SessionLegalIff`.
- EventLoops.EventLoop.Loop: takes its environment as a finite list of turns; the unbounded loop is `LoopMachine`.
- EventLoops.EventLoop.Iterate: another thread's whole call falls between two calls of the loop thread; the finer interleavings are `LoopMachine`.
- EventLoops.EventLoop.DoPendingFunctors: the same, and nobody pushes between the flag and the swap; that interleaving is `LoopMachine`.
- EventLoops.EventLoop.RunInLoop: what the functor calls on the loop is a parameter, since a functor's body is user code.
- ThreadPools.EventLoopThreadPool.Start: the new threads are not run; what the init callback does to its loop is user code.
- TcpConnections.TcpConnection.HandleClose: the user's calls in the down callback are not listed, since every one of them finds `kDisconnected`; the close callback is recorded, not run.
- TcpServers.TcpServer.NewConnection: setting the callbacks is the constructor's flags; addresses are not modelled.
- Buffers.Buffer.RetrieveAsString: requires `len` bytes inside the array; past its end the source reads outside its memory.
