# The TCP dispatcher, its bandwidth limiter and its wake-up protocol

The library hands TCP connections to client callbacks. Client threads push messages; one dispatcher
thread pops them, reacts to socket events, and drives every connection from "waiting for the
connect" through "connected" to "closed". It counts references by hand, keeps a list of unfinished
send requests per connection, and asks a bandwidth limiter how many bytes each connection may send.

This project models

- the **limiter** (`bwstop.cpp`): `Bwstop` is the object with its nested counting and splitting
  loops, `Bandwidth` says what each operation computes, `BandwidthTheorems` what that guarantees;
  double arithmetic is the standard model of rounding with a relative error of at most 2^-52
  (`FloatModel`), so the results hold whether the processor rounds to nearest or in one direction, and
  the budget theorem for every arithmetic whose errors together stay below one byte;
- the **queue, the reactors and the wake-up tokens** (`internal_messages.cpp`, `linux_reactor.cpp`,
  `cp_reactor.cpp`): three small objects, and a protocol in which any number of producers and the
  one consumer interleave between their half-steps (`WakeUpProtocol`);
- the **callback protocol** of `itcp_dispatcher.h` as a language and as an automaton
  (`CallbackProtocol`), which all three dispatchers are proved to keep;
- the **Linux dispatcher** (`tcp_dispatcher.cpp`): `DispatcherState` and `DispatcherSteps` say what
  one client call, message, socket event, accept, idle turn or move of the kernel does to the state;
  a run is any sequence of those. `TcpDispatcher` is the object, with the loops and in-place updates
  of the source; each method is proved to do exactly the corresponding step. The rest of the files
  prove what every run keeps: references, lifetimes, callbacks, semaphores, the order of the bytes on
  every socket, writability, the rate bound of the tracked connections and what all sockets accept
  beyond it. A null pointer the thread goes through ends the
  process (`crashed`): `StepCrashes` says exactly which step does that;
- the **receiving side** of one Linux connection, as far as lost reports of readability go
  (`ReadabilityProofs`);
- the **two Windows dispatchers** (`win_tcp_dispatcher.cpp`, `tcp_dispatcher_biocp.cpp`), as far as
  callbacks, `close_conn_wait` and `stop_accepting` go (`PortDispatcherSteps`, `PortDispatcher`).

## What the model assumes

- The dispatcher starts without a limit; one comes only through `set_bandwidth`.
- A connection or request lives in a store keyed by its address, and addresses are not used again;
  `refs` reaching 0 is its destruction. The base class that counts is not part of the repository: it
  starts at 0 and destroys the object when the count returns to 0.
- The clock never goes back and `millitm` is below 1000. The wake-up pipe never fills. A hard socket
  error stays with its socket.
- A socket has `room`: `send` takes as much as fits, and blocks when nothing fits. Gaining room after
  having none raises an edge that the reactor reports once. During a walk the kernel may give room
  and the clock may move just before every `send` (`World`). The theorems about byte order ask that it
  gives none (`Quiet`), and so do those on how much a walk sends (`FreeWalk`, `TurnSends`,
  `ExactlyTheTrackedAreServed`) and, for the one kind of event that can be overlooked, `EventForgets`
  and `NoLostWritability`; nothing else does.
- Clients hold a reference when they call, close only what they have called `connect` on (which does
  not tell them whether it failed), release each reference once, do not give away the reference a
  blocked `close_conn_wait` relies on, and fill the callbacks. Calls they make from inside a callback
  count as made right after the step.
- Data on a connecting socket is reported together with its writability. `EventInv` shows that this
  is needed: it is exactly the event that breaks the callback protocol.
- The reactor reports one event at a time, for connections it knows and that are not closed.
- The 0/0 share of an empty window counts as 0, the uninitialised guess of a new account is an
  arbitrary constant (`unset`), a share beyond 32 bits would wrap.

## What turned out different from the documentation

- `itcp_dispatcher.h:94-95` promises that `sent_cb` is always called, before `closed`. The callback has
  been called exactly when the request was completed, has failed or a break for it was handled
  (`SentCallbackIsExact`), so on a closed connection exactly the unbroken requests that are queued, on
  the list or dropped went unheard (`UnheardAfterClosed`; `ClosedBeforeSentCallback` is a complete
  run). The code drops the requests of closed connections without a call (`tcp_dispatcher.cpp:300`,
  `731-732`) and never releases them (`RequestReferencesAreExact`); a request without bytes never
  completes either (`EmptyRequestsNeverComplete`).
- A two-call `connect` that fails at once does not tell the client and leaves the connection without a
  receive buffer. It then hears nothing (`FailedConnectIsSilent`) until the client closes it: the close
  reports the refusal and goes through the missing buffer (`tcp_dispatcher.cpp:588`), which ends the
  process (`ClosingAFailedConnect`; `ClosingAFailedConnectCrashes` is a complete run). Closing finds
  the buffer exactly when the connect did not fail at once (`ClosingFindsTheBuffer`).
- A limit that is lifted and set again can leave a connection switched off although its socket has
  room and no edge is to come, because `on` does nothing while there is no limit
  (`LiftingTheLimitForgets`, a complete run). `EventForgets` says for every event exactly when this
  happens; it happens only while there is no limit, so never in a run in which a limit, once set, is
  not lifted (`NoLostWritabilityUnderALimit`).
- A connection established while there was no limit is not tracked, and while there is a limit it is
  never sent anything again (`NeverServedUnderALimit`; `AReadyConnectionIsNeverServed` is a complete
  run). `TurnSends` says how many bytes an idle turn sends on each connection, and
  `ExactlyTheTrackedAreServed` that after a quiet second it serves exactly the tracked and switched-on
  ones.
- The destructor's assertion on the socket counter fails exactly when two-call connects were made,
  whose sockets are not counted but whose closings are (`DestructorAssertion`;
  `TwoCallLeavesTheCounter` is a complete run).
- The promise of uninterleaved data rests on the kernel giving no room between two requests of one
  walk: with one byte of room in the middle the data 1, 2 and 3 leaves as 1, 3
  (`RoomInTheMiddleInterleaves`, a complete run). `AttemptKeepsTheWire` is the exact condition.
- `itcp_dispatcher.h:123` promises that `accepted` is not called once `stop_accepting` has returned. On
  Linux it returns when its message is posted: `AcceptedAfterStopAcceptingReturned` is a run with a
  call after that. Newcomers are accepted exactly until the message is handled
  (`AcceptedExactlyUntilTheStop`, `NobodyAcceptedAfterTheStop`). The Windows dispatchers wait, and keep
  the promise (`StopAcceptingIsForGood`).
- A thread registered with the Linux reactor would strand its message
  (`AnIgnoredThreadStrandsItsMessage`). Nothing registers one: only the Windows dispatchers call
  `add_thread`, and the port ignores nobody, so no message of a dispatcher is stranded
  (`DispatchersStrandNothing`).
- `itcp_dispatcher.h:81-83` promises that `set_bandwidth` limits the outgoing bandwidth. The tracked
  connections keep to the limit (`RateBound`), but closing erases the account
  (`tcp_dispatcher.cpp:585`), so the next connection gets the same budget within the same second:
  under a limit of 10 bytes there is for every `n` a run that sends `n` bytes at one instant
  (`AnyNumberOfBytesAtOnce`). What all sockets accept under the limit in any second is what is on
  record for the tracked connections plus what the connections closed since had sent in it
  (`TrackedAndClosed`). So the limit holds for all sockets whenever no connection that sent in the
  second has been closed, and is exceeded by no more than the bytes of those that have
  (`LimitOverAllSockets`).
- `itcp_dispatcher.h:102` calls a broken send canceled. A break reports false and leaves the request on
  its list, so its bytes still go out: `BrokenIsSentAllTheSame` is a complete run, and `ListedBytesGoOut` says exactly when a listed
  request puts bytes on the wire, in which the break plays no part (`BreakLeavesTheList`).
- Readability is reported once per arrival and answered by one `recv` of at most 65536 bytes. A read
  that finds more, or data with the end of the stream behind it, leaves something unread that nothing
  on the receiving side will report (`ReadForgets`, an if-and-only-if; `TheLastByteStaysUnread` and
  `TheEndStaysUnread` are runs). A later report of writability would bring it up again.

## Model

| member | source | states |
|---|---|---|
| Clock.ExpiredIsOlderThanThePeriod | bwstop.cpp:105 | the two-part comparison of seconds and milliseconds is the comparison of instants one period apart |
| FloatModel.ShareBounds | bwstop.cpp:134 | the truncated share, computed in doubles, stays within half a unit of excess above and a byte below the exact one |
| FloatModel.TenthBounds | bwstop.cpp:128 | ten percent of the slack, rounded, never exceeds the slack and reaches every whole number that fits ten times |
| FloatModel.DoublesAreSound | bwstop.cpp:128-134 | double arithmetic, rounded to nearest or in one direction, meets what the theorems below ask |
| BandwidthLimiter.Bwstop.constructor | bwstop.cpp:7-11 | starts with the given limit and nobody tracked |
| BandwidthLimiter.Bwstop.SetLimit | bwstop.cpp:17-20 | changes the limit and nothing else |
| BandwidthLimiter.Bwstop.Find | bwstop.cpp:22-35 | leaves an account for the connection, an empty switched-on one if there was none |
| BandwidthLimiter.Bwstop.On | bwstop.cpp:37-45 | switches a tracked connection on, but only under a limit |
| BandwidthLimiter.Bwstop.Off | bwstop.cpp:47-55 | switches a tracked connection off, but only under a limit |
| BandwidthLimiter.Bwstop.Insert | bwstop.cpp:57-73 | appends one record at the present time, opening an account first, but only under a limit |
| BandwidthLimiter.Bwstop.Erase | bwstop.cpp:75-80 | ends the tracking of one connection |
| BandwidthLimiter.Bwstop.GuessOf | bwstop.cpp:154-161 | the guess of a tracked connection, 0 of any other |
| BandwidthLimiter.Bwstop.CountWindow | bwstop.cpp:103-115 | the counting loop returns the bytes of the valid records, wrapped, and keeps the last expired record and everything after it |
| BandwidthLimiter.SearchStep | bwstop.cpp:118-124 | one step of the one-pass search keeps minimum and multiplicity exact, for all three outcomes of the comparison |
| BandwidthLimiter.Bwstop.Search | bwstop.cpp:117-124 | extends minimum and multiplicity from the accounts counted so far to one more |
| BandwidthLimiter.Bwstop.Count | bwstop.cpp:99-115 | counts and prunes one account and adds its window to the total |
| BandwidthLimiter.Bwstop.CountAll | bwstop.cpp:91-125 | in any map order: every account counted and pruned, the total is the sum of all windows, the search result is exact |
| BandwidthLimiter.Bwstop.SplitAll | bwstop.cpp:131-137 | every switched-on account gets its share and the least served ones the bonus; the division never meets a zero |
| BandwidthLimiter.Bwstop.Recalc | bwstop.cpp:82-152 | without a limit nothing happens; with one the accounts become those of the specification and the result tells whether the limit is exceeded |
| BandwidthTheorems.WindowAgreesWithHistory | bwstop.cpp:99-115 | pruning loses nothing: the window of the kept records is the window of everything ever inserted |
| BandwidthTheorems.CountedKeepsTheAccount | bwstop.cpp:99-115 | a recount keeps that agreement, leaves at most one expired record, and computes the window of the whole history |
| BandwidthTheorems.TimePassesOverTheAccount | bwstop.cpp:87-115 | the agreement survives the passing of time |
| BandwidthTheorems.WindowShrinks | bwstop.cpp:87-110 | without new records the total window never grows |
| BandwidthTheorems.LeastServedIsExact | bwstop.cpp:91-125 | the minimum is the smaller of the limit and the smallest switched-on window; nobody attains it exactly when everybody switched on is above the limit |
| BandwidthTheorems.RecalcReportsTheExcess | bwstop.cpp:94-151 | the reported total is the true window, and the excess is reported exactly when the window exceeds the limit |
| BandwidthTheorems.BudgetSafetyUnderErrors | bwstop.cpp:127-137 | within the limit all guesses together fit what is left of it, switched-off connections get 0, whatever the errors of the shares as long as they sum to less than one byte |
| BandwidthTheorems.BudgetSafety | bwstop.cpp:127-137 | the same in every sound arithmetic, in particular in doubles |
| BandwidthTheorems.LittleIsWasted | bwstop.cpp:127-137 | the guesses use up the slack but for a byte per switched-on connection and less than one per least-served one |
| BandwidthTheorems.LittleIsWastedExactly | bwstop.cpp:127-137 | with exact arithmetic the loss is one byte smaller |
| BandwidthTheorems.LeastServedAdvance | bwstop.cpp:127-136 | with ten bytes of slack per least-served connection each of them may send at least one byte |
| LedgerProofs.InsertedLedger | bwstop.cpp:57-73 | an inserted record adds its size to the account's total and to the window, and touches no other account |
| LedgerProofs.RecalculatedNoMore | bwstop.cpp:97-137 | a recalculation changes nobody's history, no window and no past second |
| LedgerProofs.ErasedLedger | bwstop.cpp:75-80 | erasing takes exactly the erased account's bytes out of the window and out of every past second, and touches no other account |
| LedgerProofs.ErasedNoMore | bwstop.cpp:75-80 | so nothing grows and the other accounts stay sound |
| SpanProofs.LaterSeconds | bwstop.cpp:103-110 | from now on no second holds more of the bytes on record than the window does now |
| SpanProofs.WindowIsTheLastSecond | bwstop.cpp:103-115 | the window is the second that ends now |
| SpanProofs.InsertedLevel | bwstop.cpp:57-73 | a record for which the window has room keeps every second from a given instant on within the limit |
| LedgerProofs.BudgetVisits | tcp_dispatcher.cpp:393-396 | visiting one connection takes exactly its own guess out of the budget of the walk |
| MessageQueue.InternalMessages.constructor | internal_messages.cpp:16-20 | starts empty |
| MessageQueue.InternalMessages.Push | internal_messages.cpp:36-44 | appends one message |
| MessageQueue.InternalMessages.Pop | internal_messages.cpp:46-56 | takes the oldest message off |
| MessageQueue.InternalMessages.Size | tcp_dispatcher.cpp:265 | the number of messages |
| Reactors.LinuxReactor.AddThread | linux_reactor.cpp:60-63 | one more thread whose wake-ups are ignored |
| Reactors.LinuxReactor.Stop | linux_reactor.cpp:177-186 | one token more, unless the caller is one of the reactor's own threads |
| Reactors.LinuxReactor.GetInterrupt | linux_reactor.cpp:122-175 | of the ready descriptors at most 128, each with exactly its flags; one token read exactly when the pipe is among them |
| Reactors.CpReactor.AddThread | cp_reactor.cpp:41-44 | registers a thread, which changes no wake-up |
| Reactors.CpReactor.Stop | cp_reactor.cpp:91-100 | one token more at the end of the port's queue, whoever calls |
| Reactors.CpReactor.GetTransfer | cp_reactor.cpp:58-85 | time-out exactly when the port is empty, wake-up exactly when it takes a token, closing for a failed operation |
| WakeUpProtocol.StepBalance | linux_reactor.cpp:177-186 | a step keeps the balance of messages and tokens exactly when it is no wake-up by an ignored thread |
| WakeUpProtocol.StepOrder | internal_messages.cpp:36-56 | a step keeps what was pushed equal to what was popped followed by what is queued, with nothing popped after the exit |
| WakeUpProtocol.TokensMatchMessages | win_tcp_dispatcher.cpp:364-367 | under every interleaving the queue is as long as tokens and pending posts, so a token never finds it empty and the assertion holds |
| WakeUpProtocol.NothingIsStranded | tcp_dispatcher.cpp:262-268 | with no post pending and no token left everything pushed has been popped, once and in order |
| WakeUpProtocol.DispatchersStrandNothing | win_tcp_dispatcher.cpp:104 | no message is stranded whoever posts it, as no thread is registered with the pipe and the port ignores none |
| WakeUpProtocol.AnIgnoredThreadStrandsItsMessage | linux_reactor.cpp:181-183 | one push and one stop by a thread registered with the pipe would leave a message nobody will pop |
| CallbackProtocol.AutomatonIsLanguage | itcp_dispatcher.h:17-51 | the automaton accepts exactly the prefixes of the promised traces and its state tells which kind it has seen |
| CallbackProtocol.ShutIsConsistent | tcp_dispatcher.cpp:552-582 | closing keeps the protocol with one last call, and a second closing adds nothing |
| CallbackProtocol.EstablishedIsConsistent | tcp_dispatcher.cpp:641-657 | establishing keeps the protocol and only moves forward |
| CallbackProtocol.ReceivedIsConsistent | tcp_dispatcher.cpp:709-716 | a read keeps the protocol exactly when the connection is not still connecting |
| Dispatcher.TcpDispatcher.constructor | tcp_dispatcher.cpp:32-41 | the start of every run: no connections, an empty queue, the counter at 0, no limit, the limiter's total as it happens to be |
| Dispatcher.TcpDispatcher.MakeConn | tcp_dispatcher.cpp:112-135 | a connection with two references and no functions |
| Dispatcher.TcpDispatcher.ConnectMade | tcp_dispatcher.cpp:137-164 | sets the functions; if the system accepts the connect, takes the receive buffer's reference and posts |
| Dispatcher.TcpDispatcher.Connect | tcp_dispatcher.cpp:166-220 | a connection with three references, posted and then counted; nothing when the system refuses |
| Dispatcher.TcpDispatcher.CloseConn | tcp_dispatcher.cpp:222-228 | one reference and one message |
| Dispatcher.TcpDispatcher.CloseConnWait | tcp_dispatcher.cpp:230-238 | one reference, one message, one waiter |
| Dispatcher.TcpDispatcher.Resume | tcp_dispatcher.cpp:237 | a waiter takes a post |
| Dispatcher.TcpDispatcher.Send | tcp_dispatcher.cpp:448-488 | a request with two references that holds its connection, posted behind everything else |
| Dispatcher.TcpDispatcher.StopAcceptingConnections | tcp_dispatcher.cpp:490-495 | posts the message |
| Dispatcher.TcpDispatcher.ReleaseSend | tcp_dispatcher.cpp:504-508 | gives up the client's reference, destroying the request and releasing its connection with the last one |
| Dispatcher.TcpDispatcher.BreakOff | tcp_dispatcher.cpp:510-515 | one reference and one message |
| Dispatcher.TcpDispatcher.SetBandwidth | tcp_dispatcher.cpp:527-530 | changes the limit |
| Dispatcher.TcpDispatcher.ReleaseRequest | overlappedplus.cpp:107-121 | the last release of a request releases its connection |
| Dispatcher.TcpDispatcher.ReportSent | overlappedplus.cpp:123-130 | the callback is called if it is still set and forgotten with the call |
| Dispatcher.TcpDispatcher.GiveUp | tcp_dispatcher.cpp:746-761 | a hard error switches the connection off, reports false and releases the request |
| Dispatcher.TcpDispatcher.TakeBytes | tcp_dispatcher.cpp:768-773 | the next bytes of the request go to the wire and on record |
| Dispatcher.TcpDispatcher.Complete | tcp_dispatcher.cpp:775-785 | reports true and releases the request |
| Dispatcher.TcpDispatcher.AfterSend | tcp_dispatcher.cpp:764-789 | the guess shrinks by what went out, a full request completes, a short write switches off |
| Dispatcher.TcpDispatcher.AskSocket | tcp_dispatcher.cpp:745-789 | all answers of the kernel: hard error, would block, some or all bytes |
| Dispatcher.TcpDispatcher.DoSend | tcp_dispatcher.cpp:727-792 | the whole of `do_send` with its closed, nothing-to-offer and guess branches |
| Dispatcher.TcpDispatcher.SendOne | tcp_dispatcher.cpp:397-401 | one attempt, erasing the request when it is done |
| Dispatcher.TcpDispatcher.SendPending | tcp_dispatcher.cpp:356-364 | the walk over one list stops after the first request that is done |
| Dispatcher.TcpDispatcher.SendToAll | tcp_dispatcher.cpp:393-402 | the walk over all lists with each guess loaded once |
| Dispatcher.TcpDispatcher.IdleTurn | tcp_dispatcher.cpp:382-403 | a turn without events: a free walk without a limit, then the walk with guesses unless the limit is exceeded; keeps the invariant |
| Dispatcher.TcpDispatcher.CallLast | tcp_dispatcher.cpp:552-582 | by state the one callback left, with every function forgotten and the unfinished connect released; nothing for a closed connection |
| Dispatcher.TcpDispatcher.CloseConnection | tcp_dispatcher.cpp:548-591 | the last callback, the account erased, then the releases of buffer and dispatcher and the counter down, or the end of the process when there is no buffer; nothing the second time |
| Dispatcher.TcpDispatcher.ConnectionEstablished | tcp_dispatcher.cpp:641-657 | the callback, the state, an empty record |
| Dispatcher.TcpDispatcher.AcceptConnection | tcp_dispatcher.cpp:593-639 | a connected connection with three references, tracked and counted, unless accepting has been stopped |
| Dispatcher.TcpDispatcher.HandleListener | tcp_dispatcher.cpp:372 | the accept loop takes everybody waiting, or nobody once accepting has been stopped |
| Dispatcher.TcpDispatcher.AcceptLoop | tcp_dispatcher.cpp:372 | accepts one after the other until nobody is left or accepting has been stopped |
| Dispatcher.TcpDispatcher.React | tcp_dispatcher.cpp:336-379 | closing ends the event, else writability before data |
| Dispatcher.TcpDispatcher.DoRecv | tcp_dispatcher.cpp:689-725 | the read callback and whether the connection is to stay open, for every answer of `recv` |
| Dispatcher.TcpDispatcher.HandleWrite | tcp_dispatcher.cpp:343-366 | end of the connect, or switched on and, without a limit, a walk over the list |
| Dispatcher.TcpDispatcher.HandleRead | tcp_dispatcher.cpp:376-378 | receives, and closes when nothing more is to come |
| Dispatcher.TcpDispatcher.HandleEvent | tcp_dispatcher.cpp:330-380 | one event with its close, write and read parts; keeps the invariant exactly when it is no early data |
| Dispatcher.TcpDispatcher.CallFalseCb | tcp_dispatcher.cpp:668-677 | reports false if nothing was reported yet and drops the break's reference |
| Dispatcher.TcpDispatcher.Enlist | tcp_dispatcher.cpp:297-316 | to the end of the connection's list, or nowhere when it is closed |
| Dispatcher.TcpDispatcher.Dispatch | tcp_dispatcher.cpp:271-328 | the message switch, which goes no further after a crash |
| Dispatcher.TcpDispatcher.HandleMessage | tcp_dispatcher.cpp:262-329 | takes the oldest message if there is one; keeps the invariant, but for the closing of a connection whose connect failed at once, which crashes |
| SendStepProofs.DoSendOutcome | tcp_dispatcher.cpp:727-792 | `do_send` touches one request and its connection: not done, completed in full, failed or dropped, with exactly the releases that belong to each |
| DeliveryProofs.DoSendDelivery | tcp_dispatcher.cpp:739-789 | how many bytes go out, which ones, what is left of the guess; a request that is not done is empty or leaves its connection stuck |
| BillingProofs.DoSendBill | tcp_dispatcher.cpp:745-788 | the limiter hears of exactly the bytes that went out and switches off exactly a socket that fell short |
| EventStepProofs.EarlyDataBreaksTheProtocol | tcp_dispatcher.cpp:368-379 | data delivered to a connecting connection gives a trace outside the promised language |
| EventStepProofs.EventInv | tcp_dispatcher.cpp:330-380 | an event keeps the invariant exactly when it is no such early data |
| ThreadStepProofs.MessageCrashes | tcp_dispatcher.cpp:282-296 | a message ends the process exactly when it closes a connection whose connect failed at once |
| EventStepProofs.StepCrashes | tcp_dispatcher.cpp:588 | of all steps of clients, kernel and dispatcher exactly the handling of such a message ends the process |
| EventStepProofs.StepInv | tcp_dispatcher.cpp:257-405 | every other step of clients, kernel and dispatcher keeps the invariant |
| EventStepProofs.RunInv | tcp_dispatcher.cpp:257-405 | the invariant holds after every run |
| EventStepProofs.LiveRunsAreOrderly | tcp_dispatcher.cpp:257-405 | every run the process survives, with data reported in time, is one of these |
| DispatcherTheorems.ReferencesAreExact | tcp_dispatcher.cpp:166-238 | the count of a connection is clients + two while open + one while connecting + queued closes + its live requests |
| DispatcherTheorems.DestroyedWhenClosedAndUnheld | connection.h:52-59 | a connection is destroyed exactly when it is closed and neither clients, messages nor requests hold it |
| DispatcherTheorems.NothingDestroyedIsReachable | tcp_dispatcher.cpp:268-402 | no queued message, pending list or open connection leads to a destroyed object |
| DispatcherTheorems.RequestReferencesAreExact | tcp_dispatcher.cpp:472-473 | the count of a request is the client's + the dispatcher's until completed or failed + queued breaks; a dropped one is never destroyed |
| DispatcherTheorems.WaitersAreResumed | tcp_dispatcher.cpp:289-296 | a post means closed with its last callback made; waiters are queued messages + posts, so a drained queue frees them all |
| DispatcherTheorems.PostIsSafe | tcp_dispatcher.cpp:293-294 | the semaphore posted after the release still exists |
| DispatcherTheorems.CallbacksKeepTheProtocol | itcp_dispatcher.h:17-51 | in every reachable state every trace is a promised prefix and the state field says which |
| DispatcherTheorems.CallbacksOnlyMoveForward | tcp_dispatcher.cpp:548-583 | from any reachable state on calls are only added, states only advance, closed stays closed |
| DispatcherTheorems.ClosingFindsTheBuffer | tcp_dispatcher.cpp:588 | in every reachable state a closing finds the receive buffer exactly when the connect did not fail at once; closings by the reactor always do |
| DispatcherTheorems.SurvivedIsReached | tcp_dispatcher.cpp:257-405 | the theorems about reachable states hold after every run that the process survives |
| DispatcherTheorems.FailedConnectIsSilent | tcp_dispatcher.cpp:150-163 | a connection whose connect failed at once stays so and gets no callback in any run the process survives |
| DispatcherTheorems.ClosingAFailedConnect | tcp_dispatcher.cpp:552-588 | the close the client asks for reports the refusal and then ends the process |
| DispatcherTheorems.NobodyAcceptedAfterTheStop | tcp_dispatcher.cpp:273 | once the message of `stop_accepting` has been handled no later step of any run accepts a connection |
| AcceptingProofs.AcceptedExactlyUntilTheStop | tcp_dispatcher.cpp:593-597 | after any run newcomers become connections exactly when no message of a `stop_accepting` has been handled in it, and otherwise nobody does |
| DispatcherTheorems.EmptyRequestsNeverComplete | tcp_dispatcher.cpp:739-743 | a request without bytes is never reported as sent |
| DispatcherTheorems.SentCallbackIsExact | tcp_dispatcher.cpp:668-785 | over all interleavings `sent_cb` is called at most once, exactly when the request was completed, failed or a break for it was handled; true only after the last byte, and for every completed unbroken request |
| DispatcherTheorems.UnheardAfterClosed | itcp_dispatcher.h:94-95 | on a closed connection exactly the unbroken requests queued, listed or dropped went unheard |
| DispatcherTheorems.CompletionsInOrder | tcp_dispatcher.cpp:775-785 | completions, and so true reports, on one connection come in the order of the `send` calls |
| DispatcherTheorems.CounterIsBalanced | tcp_dispatcher.cpp:207-210 | without two-call connects the counter with the connects still to be counted is the number of open connections |
| DispatcherTheorems.DestructorAssertion | tcp_dispatcher.cpp:107 | with everything closed the assertion holds exactly when the number of two-call connections is a multiple of 2^32 |
| ProgressProofs.RunFollows | tcp_dispatcher.cpp:548-591 | over every run callbacks move forward and the counter keeps its balance |
| WireWalkProofs.AttemptKeepsTheWire | tcp_dispatcher.cpp:396-401 | one attempt keeps the order of the wires exactly when nothing goes out or nothing unfinished is overtaken |
| WireWalkProofs.SendListKeepsTheWires | tcp_dispatcher.cpp:396-401 | a whole walk, limited or not, keeps it when the kernel gives no room meanwhile, though it goes on after unfinished requests |
| WireOrderProofs.WireIsPrefixOfRequests | tcp_dispatcher.cpp:745-771 | ordered wires are prefixes of the requests' data one after the other |
| WireRunProofs.NoInterleaving | itcp_dispatcher.h:93 | over every run what a socket accepted is a prefix of the requests' data in the order of the `send` calls |
| WritabilityProofs.FreeWalk | tcp_dispatcher.cpp:356-364 | without a limit a write event sends the first unfinished request as far as there is room, and nothing else |
| WritabilityProofs.EventForgets | tcp_dispatcher.cpp:343-379 | for every event, exactly when it leaves a switched-off connection with room and no edge to come: only without a limit |
| WritabilityProofs.NoLostWritability | tcp_dispatcher.cpp:343-366 | over every run without such an event a switched-off connection has no room or an edge to come |
| WritabilityProofs.NoLostWritabilityUnderALimit | tcp_dispatcher.cpp:343-366 | the same for every run from the start in which a limit, once set, is not lifted, whatever the kernel does |
| WritabilityProofs.NobodyIsForgottenUnderALimit | tcp_dispatcher.cpp:343-366 | and from any reachable state under a limit in which nobody has been forgotten yet |
| TrackingProofs.OnlyEstablishedAreTracked | bwstop.cpp:22-35 | in every reachable state, whatever limits were set, the limiter tracks only established connections |
| LostWritabilityFinding.LiftingTheLimitForgets | bwstop.cpp:37-45 | a run with a limit set, lifted and set again that leaves a connection switched off with room and no edge |
| RateBoundProofs.SendListSpends | tcp_dispatcher.cpp:395-401 | a walk over one list adds at most its guess to the window, and every byte is on record |
| RateBoundProofs.SendAllSpends | tcp_dispatcher.cpp:393-402 | a walk over all lists adds at most the guesses together |
| RateBoundProofs.SendListLevel | tcp_dispatcher.cpp:395-401 | while the clock moves inside a walk, every second from a given instant on stays within a limit for which the window had room |
| RateBoundProofs.IdleAboveTheLimit | tcp_dispatcher.cpp:392 | above the limit an idle turn only recalculates |
| RateBoundProofs.IdleWithinTheLimit | tcp_dispatcher.cpp:392-402 | within the limit an idle turn stays within it |
| RateRunProofs.ReachedSound | bwstop.cpp:57-115 | in every reachable state, whatever limits were set, each account agrees with its whole history and the window fits 32 bits |
| RateRunProofs.RateBound | tcp_dispatcher.cpp:392-402 | from any reachable state with a limit and a window of at most b bytes, while the limit stays positive and at most b, no second that ends then or later, inside a walk or not, holds more than b bytes of the tracked connections |
| RateRunProofs.FirstLimit | bwstop.cpp:17-20 | a limit set while nobody is tracked holds for every second whatsoever |
| RateRunProofs.LoweredLimit | tcp_dispatcher.cpp:392-402 | after a lowering nothing is sent on any connection, old or new, as long as the window exceeds the new limit; once within, every second that ends then or later is |
| LogProofs.ReachedTallied | tcp_dispatcher.cpp:768-773 | in every reachable state what a socket accepted under a limit is record by record what the limiter ever had on record for it, every log accounts for its wire, and only accounts of closed connections are erased |
| AllSocketsProofs.TrackedAndClosed | tcp_dispatcher.cpp:585 | for every reachable state and second, what all sockets accepted under a limit is what is on record for the tracked connections plus what those closed since had sent |
| AllSocketsProofs.LimitOverAllSockets | itcp_dispatcher.h:81-83 | so from a window within b on all sockets stay within b, but for exactly the bytes of connections that sent in the second and are closed; every byte of a second after that is counted |
| ReopenedFinding.AnyNumberOfBytesAtOnce | tcp_dispatcher.cpp:548-591 | for every n a run that sends n bytes at one instant under a limit of 10 set first and never changed |
| BrokenFindings.ListedBytesGoOut | tcp_dispatcher.cpp:727-773 | exactly when an attempt puts bytes of a listed request on the wire, broken or not |
| BrokenFindings.BreakLeavesTheList | tcp_dispatcher.cpp:668-677 | handling a break leaves the lists and what is to be sent alone |
| BrokenFindings.BrokenIsSentAllTheSame | tcp_dispatcher.cpp:668-677 | a run: a send, its break reported as failed, and then the byte on the wire |
| ReadabilityProofs.ReadForgets | tcp_dispatcher.cpp:689-725 | a read leaves an open connection with something to read and no report to come exactly when it found more than one buffer, or data with the end of the stream behind |
| ReadabilityProofs.NothingUnreadIsForgotten | linux_reactor.cpp:65-73 | in every run without such a read, whatever an open connection can still read will be reported |
| ReadabilityProofs.TheLastByteStaysUnread | tcp_dispatcher.cpp:695 | the run with one byte more than the buffer |
| ReadabilityProofs.TheEndStaysUnread | tcp_dispatcher.cpp:695 | the run with a byte and the end of the stream arriving together: `closed` is not called |
| GrantProofs.SilentUnderTheLimit | bwstop.cpp:154-161 | under a limit an idle turn sends nothing on an untracked or switched-off connection, whatever the kernel does meanwhile |
| GrantProofs.SendListGrants | tcp_dispatcher.cpp:395-401 | a walk with a guess sends the least of what is left of the first unfinished request, the guess and the room |
| GrantProofs.TurnSends | tcp_dispatcher.cpp:392-402 | how many bytes an idle turn sends on each connection, exactly |
| GrantProofs.ExactlyTheTrackedAreServed | bwstop.cpp:127-161 | after a quiet second, with ten bytes of the limit per switched-on connection, a ready connection is sent something exactly when it is tracked and switched on |
| GrantProofs.NeverServedUnderALimit | bwstop.cpp:154-161 | from any reachable state on, an established untracked connection stays untracked and is sent nothing in every run that never lifts the limit |
| DispatcherFindings.AReadyConnectionIsNeverServed | bwstop.cpp:154-161 | a run to a connection with a byte waiting and room for it that no run under the limit will send |
| DispatcherFindings.ClosingAFailedConnectCrashes | tcp_dispatcher.cpp:150-163 | the run: make, a connect that fails at once, close, crash |
| DispatcherFindings.TwoCallLeavesTheCounter | tcp_dispatcher.cpp:590 | a run with one two-call connection, created and closed, that leaves the counter at 2^32 - 1 |
| DispatcherFindings.AcceptedAfterStopAcceptingReturned | tcp_dispatcher.cpp:490-495 | a run with `accepted` called after `stop_accepting` returned |
| DispatcherFindings.ClosedBeforeSentCallback | tcp_dispatcher.cpp:727-732 | a run: a send with a callback, a close, `closed` called, the request dropped and its callback never called |
| DispatcherFindings.RoomInTheMiddleInterleaves | tcp_dispatcher.cpp:384-391 | a run in which room in the middle of a walk mixes two requests |
| WindowsDispatcher.PortDispatcher.constructor | win_tcp_dispatcher.cpp:46-107 | starts empty and accepting |
| WindowsDispatcher.PortDispatcher.Connect | win_tcp_dispatcher.cpp:186-223 | a connecting connection and its message |
| WindowsDispatcher.PortDispatcher.CloseConn | win_tcp_dispatcher.cpp:231-236 | the message |
| WindowsDispatcher.PortDispatcher.CloseConnWait | win_tcp_dispatcher.cpp:238-245 | the message and a waiter |
| WindowsDispatcher.PortDispatcher.ResumeClose | win_tcp_dispatcher.cpp:244 | a waiter takes a post |
| WindowsDispatcher.PortDispatcher.StopAcceptingConnections | win_tcp_dispatcher.cpp:299-305 | the message and a thread waiting for it |
| WindowsDispatcher.PortDispatcher.ReturnFromStop | win_tcp_dispatcher.cpp:304 | the thread takes a post and returns |
| WindowsDispatcher.PortDispatcher.CloseConnection | win_tcp_dispatcher.cpp:479-531 | by state the one callback left, and nothing for a closed connection |
| WindowsDispatcher.PortDispatcher.ActivateReceiving | win_tcp_dispatcher.cpp:538-570 | a receive is posted, or nothing is |
| WindowsDispatcher.PortDispatcher.EstablishConnection | tcp_dispatcher_biocp.cpp:618-642 | the callback once, then a receive or the closing |
| WindowsDispatcher.PortDispatcher.Accept | tcp_dispatcher_biocp.cpp:574-616 | the client's `accepted` unless cleared, then a receive or the closing |
| WindowsDispatcher.PortDispatcher.CompleteRecv | win_tcp_dispatcher.cpp:648-689 | the read callback, then another receive or the closing |
| WindowsDispatcher.PortDispatcher.CompleteConnect | win_tcp_dispatcher.cpp:704-721 | a completed connect, which does nothing after a closing |
| WindowsDispatcher.PortDispatcher.CompleteAccept | win_tcp_dispatcher.cpp:723-745 | a completed accept; failing to make the next one ends the thread |
| WindowsDispatcher.PortDispatcher.PortClose | win_tcp_dispatcher.cpp:406-408 | a failed operation closes its connection |
| WindowsDispatcher.PortDispatcher.Report | tcp_dispatcher_biocp.cpp:264-266 | the listening thread posts a socket event |
| WindowsDispatcher.PortDispatcher.CreateConnection | win_tcp_dispatcher.cpp:437-458 | the connect is under way, or its failure ends the thread |
| WindowsDispatcher.PortDispatcher.HandleExternal | tcp_dispatcher_biocp.cpp:348-381 | accepts, establishes or closes by the posted event |
| WindowsDispatcher.PortDispatcher.Dispatch | win_tcp_dispatcher.cpp:369-399 | the message switch |
| WindowsDispatcher.PortDispatcher.HandleMessage | win_tcp_dispatcher.cpp:364-367 | takes the oldest message; keeps the invariant |
| PortDispatcherProofs.StepInv | win_tcp_dispatcher.cpp:354-424 | every step of either dispatcher keeps callbacks, receives and semaphores in order |
| PortDispatcherProofs.CallbacksKeepTheProtocol | itcp_dispatcher.h:17-51 | after every run of either dispatcher every trace is a promised prefix and the state says which |
| PortDispatcherProofs.CallbacksOnlyMoveForward | tcp_dispatcher_biocp.cpp:523-642 | calls are only added and states only advance |
| PortDispatcherProofs.WaitersAreResumed | win_tcp_dispatcher.cpp:469-477 | a post means closed with its last callback made, and a drained queue frees every waiter |
| PortDispatcherProofs.StoppersAreResumed | win_tcp_dispatcher.cpp:371-374 | whoever is inside `stop_accepting` has a message or a post, and a post means `accepted` is cleared |
| PortDispatcherProofs.StopAcceptingIsForGood | win_tcp_dispatcher.cpp:723-745 | once a `stop_accepting` has returned no later step of any run calls `accepted` |

## Left out

- Connections and requests are values in a store keyed by address, not heap objects; two pointers to
  one object are two uses of one key, and a destroyed object stays in the store with a count of 0.
- Dispatcher.TcpDispatcher.CloseConnWait: stops at the semaphore; passing it is `Resume`.
- Dispatcher.TcpDispatcher.BreakOff: stops at the semaphore, which the source initialises only after
  the message is posted; whether `break_send` returns is not stated.
- Dispatcher.TcpDispatcher.HandleListener: accept errors other than "would block" end the loop with
  an exception in the source and are not modelled.
- Dispatcher.TcpDispatcher.CloseConnection: a `close` of the socket that fails throws in the middle and
  ends the thread, which is not modelled.
- ReadabilityProofs.ReadForgets: reports raised by writability, which would also bring up unread data,
  are not modelled there.
- Dispatcher.TcpDispatcher.Dispatch: the exit message, which returns from the thread and starts the
  clean-up, and the message that does nothing are not modelled.
- Dispatcher.TcpDispatcher.AcceptConnection: a failing `fcntl` on the new socket is not modelled.
- Dispatcher.TcpDispatcher.IdleTurn: takes the order in which the map is visited as given.
- Reactors.LinuxReactor.GetInterrupt: several events of one batch for a connection closed by an earlier
  one are not modelled; the dispatcher handles one event per step.
- WindowsDispatcher.PortDispatcher.CloseConnection: closing the socket and releasing the lists of
  pending operations are not modelled.
- WindowsDispatcher.PortDispatcher.HandleExternal: the search for the socket among the waiting
  connections is not modelled, the event names its connection; nor are the step from the accept branch
  into that search (`tcp_dispatcher_biocp.cpp:353-365`) and a failing switch of the new socket to
  non-blocking.
- WindowsDispatcher.PortDispatcher.PortClose: a failed accept completion, whose overlapped structure
  has no connection set (`win_tcp_dispatcher.cpp:406-408`), is not modelled.
- WindowsDispatcher.PortDispatcher.Dispatch: send, break, exit and do-nothing messages are not modelled.
- WindowsDispatcher.PortDispatcher: one class for both Windows dispatchers, told apart by `kind`;
  reference counts, send requests and the lists of pending operations are not modelled, completed
  connects and failures may come any number of times, and a two-call connect starts with its second
  half.
- The tokens of the wake-up protocol are not part of the dispatchers' states: there a message may be
  handled whenever one is queued.
- The exit message and the clean-up it does, start-up, `_P_DO_NOTHING`, memory allocation.
- Real sockets, addresses, logging; the other reactors; the limiter's virtual clock and `can`.
- A `set_bandwidth` in the middle of a walk: limits change between steps only.
- An event on the listening socket other than a connection to accept is not modelled.
