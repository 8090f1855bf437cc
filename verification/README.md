# Verification of the tag_sim network utilities

A Dafny model of four pieces of `src/util`, with proofs about all their inputs and runs.

**The epoll proactor** (`proactor_net_epoll.c`) is an event loop with one send slot, an interest
mask per descriptor, a wake pipe, a stop flag shared with other threads, and callbacks that call
back into it.

- `EpollModel.dfy` is a labelled step system. A state holds the C statics, the descriptors and
  masks of the kernel, the wake pipe, the heap cells of the request and the sends accepted, bytes
  written, requests completed and chunks received so far. An action is one atomic step of the loop
  thread or of another thread, with the results of its system calls; `Enabled` is the contract of those calls, `Apply` the effect, `Halted` is `exit`.
  Callbacks are any finite sequence of calls between two steps of the loop, and steps of other
  threads may come anywhere, also between the two statements of `stop`.
- `EpollProactor.dfy` is the C file as a class with the same statics as fields and the same
  handlers and loops. Each method is proved to take exactly the steps of the step system, so an
  execution of `Run` from a fresh proactor ends in a `Reachable` state. System-call results,
  callbacks and other threads come in as a script, a proposed run that is followed as long as it is
  possible; so the two agree both ways: every execution is a run, and every run inside the loop is
  the execution of a script.
- `EpollInvariants.dfy` proves what each step keeps. `EpollSend.dfy`, `EpollDelivery.dfy`,
  `EpollStraying.dfy` and `EpollStop.dfy` draw the consequences for every reachable state and
  every continuation. `EpollAccounts.dfy` balances whole runs from their steps alone: events,
  callbacks, bytes handed over and descriptors. `EpollRuns.dfy` holds the pieces of run that the
  examples are made of.
- `EndToEnd.dfy` joins two proactors by a byte stream.

**The kevent proactor** (`proactor_net_kevent.c`): `KeventProactor.dfy` is creation and disposal
over a heap of linked nodes, where a freed node has no fields to read, `KeventReceive.dfy` repeated
reads into one buffer.

**The hex dumper** (`debug.c`) is `HexDump.dfy`, **the codecs** (`buf.h`) are `LittleEndian.dfy`.

Things the code does that a caller may not expect are theorems with an exact condition or a
concrete run:

- A send replaces the mask by EPOLLOUT for good. A socket that was sent on is never read again
  (`SendMutesReceive`; `StaleEventStillDelivers` shows that the current batch is the only
  exception), a listener that was sent on accepts nothing from the next wait on, and every other
  registered descriptor can still be heard (`InputIsHeardIff`, `InputIsHandledIff`). The accept
  callback gets the listener as its first argument, so a reply to that argument makes the server deaf.
- The slot does not know its target. Some continuation writes a byte of the request in flight to
  another descriptor exactly when another data socket is registered, or when the loop has yet to be
  stopped and still hears its listener, which may accept one (`RequestStraysIff`). With at most one
  listener, that no send named, and before a stop, this is: exactly when any descriptor but the wake
  pipe and the target is registered (`RequestStraysIffOthers`). `StraysIff` is the same for the next
  batch alone, `MisdeliveryIsReachable` a run.
- A request whose target is no data socket keeps the slot full until some data socket is writable;
  it can move exactly when there is one or the listener may still accept one (`RequestMovesIff`).
- A send that names the read end of the wake pipe makes the loop deaf to `stop` (`WakeIsHeardIff`,
  `SendToWakePipeLosesStop`). Without one, stopping always works (`StopReachesExitIff`,
  `StopForcesExit`), but for an event of a listener that a second start_server replaced: the
  dispatcher takes it for data, the read fails and the process ends.
- Cleanup closes what its two statics name, the last listener and the last connected socket;
  accepted clients and earlier ones stay open (`CleanupLeavesOpenIff`, `StaticsFollow`).
- Cleanup keeps the request pointer, so a second cleanup frees twice exactly when a request was
  pending (`SecondCleanup`).
- Disposing a kevent proactor closes all its descriptors but never frees the proactor itself
  (`DisposeBalancesCreate`, `ProactorBlockIsNeverFreed`).

A read that fails or ends the stream closes the descriptor before EPOLL_CTL_DEL, which then fails
with EBADF; the comment there speaks of removing the socket, the code ends the process. The model
follows the code. The empty payload needs one write of zero bytes, so a request completes within
`max(1, length)` moving writes.

## Model

| member | source | states |
|---|---|---|
| EpollSend.WireConservation | src/util/proactor_net_epoll.c:178-199 | in every reachable state, callbacks included, the bytes written are the finished payloads in acceptance order followed by the written part of the request in flight, and the offset stays within the payload |
| EpollSend.OrderedCompletion | src/util/proactor_net_epoll.c:187-196 | the k-th completion is the k-th accepted send, when exactly the first k+1 payloads are on the wire; accepted minus completed is 1 with a request in flight and 0 otherwise |
| EpollSend.SendInCompletionRefused | src/util/proactor_net_epoll.c:286-289 | a send issued inside a completion callback returns -1 and changes nothing, because the slot is still full |
| EpollSend.OneCallbackPerFinish | src/util/proactor_net_epoll.c:187-192 | along every run the entries into the completion callback are as many as the steps that complete a request while the callback is set |
| EpollSend.CallbackDescribesLastFinish | src/util/proactor_net_epoll.c:187-197 | whenever the completion callback runs, it was called for the last finish, with the request still in the slot, nothing written since, and the descriptor that its last byte, if any, was written to |
| EpollSend.CompletionCallbackIsReachable | src/util/proactor_net_epoll.c:190-192 | a run that is in the completion callback of a request |
| EpollSend.HeapLedger | src/util/proactor_net_epoll.c:286-302 | live structs and live buffers each number 1 if the slot is full and 0 otherwise, 0 after cleanup, and nothing is freed twice |
| EpollSend.SecondCleanup | src/util/proactor_net_epoll.c:90-93 | a second cleanup corrupts the heap if and only if a request was pending |
| EpollSend.TargetsStayRegistered | src/util/proactor_net_epoll.c:304-309 | every target of an accepted send is open, registered and watched for EPOLLOUT only; no closed descriptor is registered; every event left in a batch is on a registered descriptor |
| EpollSend.MasksAreExact | src/util/proactor_net_epoll.c:112-149 | a registered descriptor is watched for EPOLLOUT alone if a send named it, otherwise for EPOLLIN alone if it is the wake pipe or listening, and for both if not |
| EpollSend.SendToNewClientHalts | src/util/proactor_net_epoll.c:209-216 | sending to the new client from the accept callback ends the process, whatever epoll_ctl is willing to do |
| EpollSend.FailedReadEndsProcess | src/util/proactor_net_epoll.c:153-170 | every run in which some data event's read returns 0 or -1 ends with the process, because close comes before EPOLL_CTL_DEL |
| EpollSend.RunGrows | src/util/proactor_net_epoll.c:243-258 | along any run that stays alive no descriptor is closed or deregistered, masks change only to EPOLLOUT, and only a new descriptor becomes the listener |
| EpollSend.WriteEventReachesHandler | src/util/proactor_net_epoll.c:243-258 | in any batch after an accepted send on a data socket, its EPOLLOUT event carries no EPOLLIN and is dispatched to the write handler, whatever callbacks ran before it in the batch |
| EpollSend.TargetCanBeReported | src/util/proactor_net_epoll.c:304-307 | the next epoll_wait may report that event |
| EpollSend.InputStarvesSends | src/util/proactor_net_epoll.c:251-257 | a run whose events all carry input writes nothing and completes nothing, even if each of the sockets is writable as well |
| EpollSend.SendCompletes | src/util/proactor_net_epoll.c:178-199 | in any interleaving a request is complete after as many byte-moving writes as it has bytes outstanding |
| EpollDelivery.PerSocketDelivery | src/util/proactor_net_epoll.c:178-181 | if one data socket was ever registered, each byte of each request naming it is on the wire in its place, with its value, to that socket |
| EpollStraying.StraysIff | src/util/proactor_net_epoll.c:178-181 | the next batch may offer the slot outside a set of descriptors if and only if a data socket outside it is registered |
| EpollStraying.GoesOutsideIff | src/util/proactor_net_epoll.c:178-219 | for any set of descriptors named by sends, some continuation writes a byte of the request in flight outside the set if and only if a data socket outside it is registered, or stop is not set and the listener is still watched for input |
| EpollStraying.RequestStraysIff | src/util/proactor_net_epoll.c:178-219 | the same for the target of the request alone: exactly when a byte of it can go astray |
| EpollStraying.RequestStraysIffOthers | src/util/proactor_net_epoll.c:178-219 | before a stop, with at most one listener that no send named: exactly when any descriptor but the wake pipe and the target is registered |
| EpollStraying.RequestMovesIff | src/util/proactor_net_epoll.c:178-219 | the request in flight, also an empty one, can move in some continuation if and only if a data socket is registered, or stop is not set and the listener is still watched for input |
| EpollStraying.StepStaysConfined | src/util/proactor_net_epoll.c:230-260 | every step keeps a request whose outlets are all in the set confined to it until it is complete |
| EpollRuns.WriteByte | src/util/proactor_net_epoll.c:178-199 | whoever the request is for, its next byte can be written to any data socket watched for EPOLLOUT |
| EpollStraying.MisdeliveryIsReachable | src/util/proactor_net_epoll.c:202-219 | a run with two accepted clients in which a byte sent to one is written to the other |
| EpollDelivery.SendMutesReceive | src/util/proactor_net_epoll.c:304-307 | once a socket was named by a send and no input event of it is left in the batch, no continuation ever delivers another byte of it |
| EpollDelivery.StaleEventStillDelivers | src/util/proactor_net_epoll.c:243-258 | a run in which an event already in the batch delivers data of a socket after a send on it |
| EpollDelivery.MutedStays | src/util/proactor_net_epoll.c:304-307 | every step keeps a descriptor muted |
| EpollDelivery.InputIsHeardIff | src/util/proactor_net_epoll.c:304-307 | input of a registered descriptor other than the wake pipe can be reported by the next epoll_wait, and by any later one, if and only if no send named it |
| EpollDelivery.InputIsHandledIff | src/util/proactor_net_epoll.c:243-258 | some batch has a data socket read, or the listener accept, if and only if no send named it |
| EpollStop.WakeConservation | src/util/proactor_net_epoll.c:222-247 | along every run the pipe gains one byte for each successful wake and loses one for each wake event whose read succeeds, and nothing else moves it; the loop never reads it empty |
| EpollStop.NoLostStop | src/util/proactor_net_epoll.c:233-266 | a loop waiting with stop set has a wake in the pipe or an unfinished stopper |
| EpollStop.StopIsAskedFor | src/util/proactor_net_epoll.c:263-266 | after every run the flag is set if and only if it was set before or stop was called |
| EpollStop.StoppedReturnsOnce | src/util/proactor_net_epoll.c:233-241 | once stop is set, any continuation has at most one return of epoll_wait, EINTR and errors included, and only if the loop was waiting |
| EpollStop.StopBoundsTheLoop | src/util/proactor_net_epoll.c:233-260 | once stop is set, every interleaving gives the loop at most its rank, at most 2 * MAX_EVENTS + 3, in further control steps, plus one for each later call of run |
| EpollStop.StoppingMovesOn | src/util/proactor_net_epoll.c:233-260 | while stopping, with no event of a replaced listener in the batch, the next control step is enabled and keeps the loop so |
| EpollStop.StopReachesExitIff | src/util/proactor_net_epoll.c:263-266 | from a reachable loop state with stop set, all stoppers finished and no send to the wake pipe, some run leaves run if and only if no event of a replaced listener is pending; it then does so within 2 * MAX_EVENTS + 3 steps |
| EpollStop.StopForcesExit | src/util/proactor_net_epoll.c:233-266 | once stop is set, every continuation makes a bounded number of control steps, and one that lives and can make no further one has left the loop, unless a send named the wake pipe |
| EpollStop.WakeIsHeardIff | src/util/proactor_net_epoll.c:304-307 | a non-empty wake pipe can be reported if and only if no send named its read end |
| EpollStop.SendToWakePipeLosesStop | src/util/proactor_net_epoll.c:285-312 | a run that ends waiting with stop set, a wake in the pipe and no possible event |
| EpollInvariants.StepKeepsWire | src/util/proactor_net_epoll.c:178-199 | every step keeps the wire and slot invariant |
| EpollInvariants.StepKeepsHeap | src/util/proactor_net_epoll.c:286-302 | every step keeps the heap invariant |
| EpollInvariants.StepKeepsRegistration | src/util/proactor_net_epoll.c:202-219 | every step that stays alive keeps the registration invariant, with new descriptors, sends from callbacks and stale events |
| EpollInvariants.StepKeepsMasks | src/util/proactor_net_epoll.c:304-307 | every step that stays alive keeps it true that a registered descriptor is watched for input unless a send named it, and a data socket for output |
| EpollInvariants.StepKeepsBatch | src/util/proactor_net_epoll.c:243-258 | every step keeps the batch on registered, distinct descriptors |
| EpollInvariants.StepKeepsPipe | src/util/proactor_net_epoll.c:243-247 | no step blocks on an empty wake pipe, and every step keeps the pipe invariant |
| EpollInvariants.StepKeepsStop | src/util/proactor_net_epoll.c:263-266 | every step keeps the stop invariant, also between the two statements of stop |
| EpollInvariants.ReachableInv | src/util/proactor_net_epoll.c:230-260 | every reachable state has all invariants |
| EpollAccounts.EventsAreHandled | src/util/proactor_net_epoll.c:243-258 | along every run the events handled, then those left in the batch, are those of the batch at the start, then those reported: none dropped, repeated or reordered |
| EpollAccounts.CallbacksAreExact | src/util/proactor_net_epoll.c:153-258 | every run calls exactly the callbacks its events and results owe, in order, with the right descriptors: none for the wake pipe, accept for the listener, receive before send completion for a socket |
| EpollAccounts.ReceivedIsRead | src/util/proactor_net_epoll.c:153-175 | every run hands the receive callback exactly the bytes of each successful read of an event with input, in order, also when the event has output as well |
| EpollAccounts.SettersAreSeparate | src/util/proactor_net_epoll.c:269-282 | after every run each callback is set as the last call of its own setter left it |
| EpollAccounts.OpenedIsRegistered | src/util/proactor_net_epoll.c:97-219 | along every run from a fresh proactor the open descriptors are the earlier ones, the registered ones and the client in an accept callback |
| EpollAccounts.StaticsFollow | src/util/proactor_net_epoll.c:97-150 | along every live run the statics name the last listener and the last connected socket |
| EpollAccounts.CleanupLeavesOpenIff | src/util/proactor_net_epoll.c:76-88 | after cleanup a descriptor is open if and only if it belonged to others, or is registered and neither the wake pipe nor named by a static |
| EpollProactor.Proactor.constructor | src/util/proactor_net_epoll.c:55-73 | leaves an initial state if and only if epoll_create1, pipe and epoll_ctl all succeed, and otherwise exits with the descriptors opened so far |
| EpollProactor.Proactor.Wake | src/util/proactor_net_epoll.c:222-227 | one byte more in the pipe, or the error exit |
| EpollProactor.Proactor.Stop | src/util/proactor_net_epoll.c:263-266 | the flag, then whatever other threads do, then the wake, as a legal run; any possible calls of other threads are what comes between |
| EpollProactor.Proactor.Send | src/util/proactor_net_epoll.c:285-312 | returns 0 exactly when the payload was accepted for the socket, -1 exactly when the slot was full, and then changes nothing; exits exactly when the slot was empty and an allocation or epoll_ctl fails |
| EpollProactor.Proactor.StartServer | src/util/proactor_net_epoll.c:97-124 | the listener registered for EPOLLIN, or the error exit, and when which |
| EpollProactor.Proactor.Connect | src/util/proactor_net_epoll.c:127-150 | the socket registered for both directions, or the error exit, and when which |
| EpollProactor.Proactor.HandleWriteEvent | src/util/proactor_net_epoll.c:178-199 | the write step followed by the run of its callback, which is the script's if that is possible |
| EpollProactor.Proactor.SendCallback | src/util/proactor_net_epoll.c:190-196 | the callback's calls as a legal run, then the release of the request |
| EpollProactor.Proactor.HandleDataEvent | src/util/proactor_net_epoll.c:153-175 | the read step followed by the run of its callback, which is the script's if that is possible |
| EpollProactor.Proactor.CloseSocket | src/util/proactor_net_epoll.c:160-168 | always ends the process, with the descriptor closed |
| EpollProactor.Proactor.HandleAcceptEvent | src/util/proactor_net_epoll.c:202-219 | the accept step followed by the legal run of its callback and the registration |
| EpollProactor.Proactor.ReadWakePipe | src/util/proactor_net_epoll.c:244-247 | one byte less in the pipe if the read succeeds |
| EpollProactor.Proactor.HandleEvent | src/util/proactor_net_epoll.c:244-257 | the if-chain sends an event to the handler the step system names, and takes its step and the legal run of its callback |
| EpollProactor.Proactor.DispatchNext | src/util/proactor_net_epoll.c:243-258 | the next event leaves the batch with its dispatch step, on the script's results if they are possible, and the run behind it |
| EpollProactor.Proactor.DispatchBatch | src/util/proactor_net_epoll.c:243-258 | the batch loop follows the script and ends with the whole batch handled or the process dead |
| EpollProactor.Proactor.WaitReturned | src/util/proactor_net_epoll.c:234-241 | error exit, restart after a signal, or the batch to handle |
| EpollProactor.Proactor.AfterWait | src/util/proactor_net_epoll.c:234-258 | epoll_wait returns what the script says if it can, and every event of that return is handled as the script says |
| EpollProactor.Proactor.Run | src/util/proactor_net_epoll.c:230-260 | every execution is a legal run that enters the loop and ends with the process dead, in the application with stop set, or at the loop test; unless it died, the events it handled are those reported, in order; conversely a script that is a run is executed step by step, to its end or to where the loop is left |
| EpollProactor.ScriptIsFollowed | src/util/proactor_net_epoll.c:230-260 | what following a script means: if it is a run, the execution is its continuation, or its beginning up to the return to the application |
| EpollProactor.LeavesOnlyStopped | src/util/proactor_net_epoll.c:233-260 | no run brings the loop thread back to the application without stop |
| EpollProactor.Proactor.Cleanup | src/util/proactor_net_epoll.c:76-94 | the exact new state of cleanup |
| EndToEnd.ReceivedIsPrefixOfAccepted | src/util/proactor_net_epoll.c:153-199 | in every interleaving of a sender with one connection, a byte queue and a receiver with its callback set, the received chunks are a prefix of the accepted payloads, all of them once slot and queue are empty; the prefix also holds after either side died |
| EndToEnd.RunKeepsLink | src/util/proactor_net_epoll.c:153-199 | received bytes plus queued bytes are the bytes written, along every run |
| EndToEnd.RxConservesIff | src/util/proactor_net_epoll.c:172-174 | a step of the receiver loses no byte of the stream if and only if it reads none of them or the receive callback is set |
| KeventProactor.Proactor.Create | src/util/proactor_net_kevent.c:96-161 | for every failure point, the descriptors opened, each of the three fields and the status |
| KeventProactor.Proactor.Stop | src/util/proactor_net_kevent.c:302-321 | the flag and one write to the wake pipe |
| KeventProactor.Proactor.CloseSockets | src/util/proactor_net_kevent.c:182-195 | the walk terminates, does exactly the teardown of the list in order and leaves the heap without its nodes; every field is read from the heap, in which a freed node no longer is |
| KeventProactor.Proactor.Dispose | src/util/proactor_net_kevent.c:165-205 | nothing for a null pointer, otherwise the exact sequence of effects of a disposal and the heap without the listed nodes |
| KeventProactor.ListIsDistinct | src/util/proactor_net_kevent.c:182-195 | a list that ends at a null pointer visits no node twice |
| KeventProactor.DisposeInOrder | src/util/proactor_net_kevent.c:182-195 | for every list a disposal accepts, the k-th node in next order gets its effects in one piece, when exactly the nodes before it have been freed |
| KeventProactor.CallbackThenCloseThenFree | src/util/proactor_net_kevent.c:185-192 | in the log of a disposal a node's close callback is directly followed by the close of its socket and the release of the node, and every release directly follows the close |
| KeventProactor.DisposeStartAndEnd | src/util/proactor_net_kevent.c:174-203 | the wake comes first and once, the dispose event second, exactly if there is an event callback, and the closes of the pipe ends, read end first, and of the queue come last |
| KeventProactor.DisposeTouchesOnce | src/util/proactor_net_kevent.c:165-205 | for every list a disposal accepts, each listed node is freed once, gets its close callback once if it has one, and no other address is touched |
| KeventProactor.DisposeBalancesCreate | src/util/proactor_net_kevent.c:165-205 | for every failure point of create, calloc included, and every list, dispose closes each descriptor as often as create opened it plus once for each listed owner; anything else it closes is -1 |
| KeventProactor.ProactorBlockIsNeverFreed | src/util/proactor_net_kevent.c:109-205 | the block of the proactor is allocated once by a creation and freed by no disposal |
| KeventReceive.TcpSocket.ProcessReadReady | src/util/proactor_net_kevent.c:377-415 | the exact new state of a read, and the status |
| KeventReceive.CapacityOverRuns | src/util/proactor_net_kevent.c:393-406 | over all runs the requested length never grows and stays between 1 and the initial one, chunks never get longer, they are the stream in order, and a close callback means the whole stream was delivered |
| KeventReceive.SpuriousCloseIff | src/util/proactor_net_kevent.c:393-406 | with bytes left, a read can call the close callback if and only if the buffer length is 0 |
| KeventReceive.CloseForEachZeroRead | src/util/proactor_net_kevent.c:400-406 | over every run the close callback is called once for each read that returns 0 if both callbacks are set, and never otherwise |
| HexDump.DumpPtr | src/util/debug.c:80-122 | the gate, the two warnings, and otherwise exactly the rows of the dump |
| HexDump.DumpRows | src/util/debug.c:106-121 | the row loop over one reused buffer prints the dump |
| HexDump.DumpLine | src/util/debug.c:108-120 | the printed row does not depend on what the buffer held before |
| HexDump.DumpColumns | src/util/debug.c:115-117 | the column loop writes up to 16 bytes untruncated and is not cut short by the size guard |
| HexDump.RowReads | src/util/debug.c:108-117 | row r starts with decimal 16 r, filled up with zeros to four digits and no further, and carries 16 bytes, the last row what is left |
| HexDump.DumpRoundTrip | src/util/debug.c:98-121 | the hex pairs of all rows, read in order, are the dumped bytes |
| HexDump.RowIsShort | src/util/debug.c:76-117 | a row of a buffer below 2^63 bytes has at most 19 + 48 characters |
| LittleEndian.Encode16 | src/util/buf.h:48-51 | writes the two bytes of the value and changes no other |
| LittleEndian.Encode32 | src/util/buf.h:57-62 | writes the four bytes of the value and changes no other |
| LittleEndian.Encode64 | src/util/buf.h:68-77 | writes the eight bytes of the value and changes no other |
| LittleEndian.DecodeEncode16 | src/util/buf.h:48-55 | decoding what was encoded gives the value |
| LittleEndian.DecodeEncode32 | src/util/buf.h:57-66 | decoding what was encoded gives the value |
| LittleEndian.DecodeEncode64 | src/util/buf.h:68-82 | decoding what was encoded gives the value |
| LittleEndian.EncodeDecode16 | src/util/buf.h:48-55 | encoding what was decoded gives the bytes |
| LittleEndian.EncodeDecode32 | src/util/buf.h:57-66 | encoding what was decoded gives the bytes |
| LittleEndian.EncodeDecode64 | src/util/buf.h:68-82 | encoding what was decoded gives the bytes |
| LittleEndian.Value16 | src/util/buf.h:53-55 | the decoded value is the base-256 value of the bytes |
| LittleEndian.Value32 | src/util/buf.h:64-66 | the decoded value is the base-256 value of the bytes |
| LittleEndian.Value64 | src/util/buf.h:79-82 | the decoded value is the base-256 value of the bytes |
| LittleEndian.HalvesOf64 | src/util/buf.h:68-77 | a 64-bit field is its low 32-bit field followed by its high one |

## Left out

- EpollSend.SendCompletes: says how many moving writes complete a request, not that the kernel ever finds the socket writable.
- EpollStraying.GoesOutsideIff: speaks of the states in which the loop waits; what the rest of a batch under way may do first is left to EpollSend.WriteEventReachesHandler.
- Listening sockets: epoll_wait reports them for input only, and reading one fails with ENOTCONN; both are taken as contracts of the system calls.
- After cleanup: only wake and stop of other threads are modelled, and their write to the closed pipe fails; reuse of the descriptor numbers is not.
- Memory model and pipe capacity: `stop` is sequentially consistent and a wake never blocks on a full pipe.
- Calls made by callbacks and by application code are arbitrary, except that callbacks do not call run or cleanup and nobody closes descriptors behind the proactor's back.
- Socket, bind, listen, connect and their addresses: one flag says whether they all succeeded.
- Callback user data pointers: they are passed through unread.
- The run loop of the kevent proactor: each of its rounds ends in a walk from an uninitialised pointer (src/util/proactor_net_kevent.c:291), so it has no defined meaning after the first.
- The kevent accept and write handlers: the first only allocates and calls back, the second is empty; its leftover send code uses variables that are not declared.
- Socket lists are a precondition of disposal, since no live code fills them; close callbacks leave the list alone, and at src/util/proactor_net_kevent.c:186 and 400 the evident call is modelled instead of the mismatched one.
- UDP sockets of the kevent proactor: an empty datagram also returns 0.
- src/util/proactor_net_iocp.c: a thin wrapper whose wake does nothing.
- Log output, level clamping, status texts, clocks and sleeps: easy members.
