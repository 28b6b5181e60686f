# Max-Net: a verified model of its asynchronous core

Max-Net is a set of networking classes for Max/MSP, written in C++ on Boost.Asio. This
project models the classes whose correctness depends on the interleaving of callbacks,
and the two pure ones beside them, and proves what they promise over whole runs.

* `Pump.dfy` - the queue discipline that the session and the resolver share: a FIFO with
  one asynchronous operation in flight, which may be cleared or drained.
* `SessionModel.dfy`, `SessionProofs.dfy`, `History.dfy`, `LateWrites.dfy`, `Session.dfy` -
  the websocket session: its state machine, what holds over its runs, what its logs record,
  what a write after a drain does, and the class with its handlers.
* `Quiescence.dfy` - how a session comes to rest.
* `Client.dfy`, `ClientSessions.dfy`, `ClientHistory.dfy`, `Allocator.dfy`, `Buffers.dfy` -
  ownership of messages across caller, session and allocator, for one session and for all
  that share the allocator, what the client's callbacks are told, and reassembly of
  received messages.
* `Locks.dfy` - the two mutexes of a session and the threads that take them.
* `Listener.dfy`, `Resolver.dfy` - the accept loop and the resolver queue.
* `Opening.dfy` - how the client opens sessions: directly, or through the resolver.
* `Stats.dfy` - the statistics counters and their timer.
* `NetUrl.dfy` - the URL (the ws-URI form and default port of section 3 of RFC 6455).
* `Atoms.dfy` - the message that carries a list of atoms.

## How asynchrony is modelled

The environment is part of the state: a sequence of pending operations. An initiated
operation completes exactly once, never inside the call that started it, with any result.
A completion and the run of its handler are one step, as nothing observes the gap. A
section under a mutex is one step. A handler that looks at the status again after other
threads may have changed it is two steps: after a status change the read handlers leave a
token (`HandshakeTail`, `AcceptTail`, `ReadTail`, `ErrorTail`), and any other step may come
before the token is taken up. `is_open()` may change at any time. Handing the io thread
flag and the in-place flag of `dispatch` to the steps covers both ways a lambda can run.

Actions are data, `Next` applies one, `Legal` and `Exec` a sequence of them, and the main
lemmas quantify over every legal sequence. Each class keeps the program's fields, and
ghost records for pending operations and logs; its methods are proved to perform the step
of the same name.

## Where the promise does not hold

* Draining after a clean close can hand over the message in flight (`DrainLosesWrite`). A
  later write then makes the late completion dispose of the wrong message
  (`LateWriteExample`). `LateWriteExact` has the exact condition on the write; every write
  meets it without `on_write_done`, and with it until the stream reports a clean close.
* A write from `on_write_done` or from `on_read` can deadlock (`DeadlockFreedomExact`).
* A port text above the range of an int makes the resolver throw with the request queued,
  which blocks it for good (`UnusablePortBlocks`, `ParsedUrlBlocks`, `BlockedForever`).
* After a failed lookup the client connects all the same, and a valid URL meets the
  assertion of `connect` (`ConnectAssertionsExact`, `FailedLookupAsserts`).
* A `session_create` while a lookup is waited for makes that lookup's answer connect the
  new session (`CreateExact`, `TwoCreatesBreak`).
* `start_listen` before the previous loop made its error call lets an error take a
  connection away (`StartAgainExact`, `TwoStartsBreak`).
* `set_enabled(true)` on enabled statistics stops them (`CallsStopTimerUnlessDue`,
  `EnablingTwiceStops`).
* The public accessors lose a port above 65535; together with an empty host the URL cannot
  be written back (`PublicNormalForm`, `NamelessTextIsLost`).

## Model

| member | source | states |
|---|---|---|
| SessionProofs.DisposesExactlyOnce | source/shared/include/session.h:350-388 | Without `on_write_done`, and with it until the stream reports a clean close, in every interleaving of every handler and whatever is written when: the messages submitted are those disposed of followed by the queue, all of them by the installed way, and one write is outstanding, for the front message, exactly while the queue is non-empty. |
| SessionProofs.ExactUntilDrain | source/shared/include/session.h:361-388 | The same for every session over every run in which no drain has happened yet. |
| SessionProofs.OnlyCleanEndsDrain | source/shared/include/session.h:435-452 | A run without a read error that is a clean close contains no drain. |
| SessionProofs.DrainDisposesExactlyOnce | source/shared/include/session.h:440-451 | With drains, and no write made while the queue is empty with a write outstanding, there is still one disposal per message, in order, and writes never overlap. |
| SessionProofs.OwnsWritesExact | source/shared/include/session.h:326-348 | After such a run every message being written is still queued if and only if the next write would meet that condition. |
| SessionProofs.DrainLosesWrite | source/shared/include/session.h:443-451 | The only step that hands over a message while it is being written is a drain that meets an outstanding write, and that one always does. |
| LateWrites.LateWriteExact | source/shared/include/session.h:361-368 | After any such run, writing any message keeps disposal exact in every continuation if and only if the queue is non-empty or no write is outstanding. |
| LateWrites.LateWriteExample | source/shared/include/session.h:361-368 | A run that breaks the promise: two messages submitted, `on_write_done` called twice for the first and never for the second, queue and operations empty. |
| SessionProofs.WireKeepsOrder | source/shared/include/session.h:326-348 | Messages are started as a subsequence of the submissions, and as a prefix of them until one is disposed of unstarted: without `on_write_done`, before a clean close, or with careful writes. |
| SessionHistory.OpenStreamSendsAll | source/shared/include/session.h:361-373 | While nothing was drained and every completion finds the stream open, nothing is left unsent: the messages started, or about to be by a waiting lambda, are those written up to and including the front of the queue. |
| SessionHistory.OpenStreamStartsAll | source/shared/include/session.h:326-334 | And if every write is made on an io thread, they have all been started. |
| SessionHistory.SkipExact | source/shared/include/session.h:370-386 | A message is disposed of unsent if and only if a completion found the stream closed, or a drain took place, with more than one message queued. |
| SessionHistory.WriteHistory | source/shared/include/session.h:213-348 | Submitted are the messages of the calls of `write`, in order; a write is started by a call on an io thread with nothing queued, by a dispatched lambda, and by a completion on an open stream, and by nothing else. |
| SessionHistory.HandedOverIsNotFreed | source/shared/include/session.h:364-368 | With `on_write_done` set the session never gives a message back. |
| SessionHistory.AllocHistory | source/shared/include/session.h:365-420 | The allocation counter is the messages delivered less those given back, modulo 2^64. |
| SessionProofs.DestructionFindsQueueEmpty | source/shared/include/session.h:152-171 | In every run, drains and careless writes included, a non-empty queue has an outstanding write, so a session nothing refers to has an empty queue and its destructor's loops and assertion are safe. |
| SessionProofs.QueueEmpties | source/shared/include/session.h:361-388 | Once writing stops, as many completions as there are queued messages empty the queue, in every interleaving. |
| SessionProofs.QueueNeverStuck | source/shared/include/session.h:370-386 | A non-empty queue always has a write whose next stage can run, and one completion that finds the stream closed empties it. |
| SessionProofs.ReadLoopNeverStuck | source/shared/include/session.h:392-407 | Between handlers ONLINE means exactly one read pending and any other status at most one; with nothing pending the session is not ONLINE; ONLINE is entered at most once; the end of reading is reported at most once. Holds with other handlers running between a status change and the read it starts. |
| SessionProofs.LeavingOnlineEndsReading | source/shared/include/session.h:392-407 | Once a session left ONLINE it stays off, and receives at most one more message, the one whose read was already pending. |
| SessionHistory.EndDrainsExactly | source/shared/include/session.h:433-457 | The end of reading hands the whole queue over if and only if the error was a websocket close or number 89 and `on_write_done` is set; otherwise it leaves the queue alone. |
| SessionHistory.ReadHistory | source/shared/include/session.h:392-457 | Each handler that finds the session ONLINE begins one read, in place or by one lambda; every read begun is pending or completed; every read error is reported to `on_read` exactly once, or is about to be. |
| SessionProofs.ConnectionOutcome | source/shared/include/session.h:273-322 | An attempt that is over has called `on_ready` exactly once, with success exactly when it set ONLINE; one that is not over has not called it. |
| SessionHistory.ReadyHistory | source/shared/include/session.h:273-322 | `on_ready` is called with exactly the error code of the handler that decided the attempt; a handler that failed set ABORTED and one that succeeded ONLINE. |
| SessionHistory.OpenOperationsHistory | source/shared/include/session.h:191-307 | `connect` starts one asynchronous connect, whose success starts one handshake, and `accept` one accept; each is pending until its handler ran, and nothing else starts any. |
| SessionHistory.StatusHistory | source/shared/include/session.h:273-472 | The status is the one set last: BLOCKED at first and by `connect`, ONLINE by a handshake or accept, ABORTED by a failed opening or a read error, OFFLINE by a websocket close, error number 89 or a completed close. |
| SessionProofs.AttemptCompletes | source/shared/include/session.h:273-322 | From any point of any run with an attempt open, at most two more opening handlers run; until `on_ready` was called the next of them can run; after two of them, if not after one, it was called, once. |
| Quiescence.SessionComesToRest | source/shared/include/session.h:152-171 | From any run that ended off ONLINE, while nothing is written, closed, connected or accepted: a measure of the queue, the pending operations and the pending closes bounds the handlers still to come, while it is positive one of them can run, and at zero nothing refers to the session and its queue is empty, so the destructor does not throw. |
| SessionProofs.FramingIsFaithful | source/shared/include/session.h:409-432 | The buffer is empty before every read, and the messages delivered are the messages received, byte for byte for binary ones and without data for text, whatever the chunk boundaries. |
| SessionHistory.DeliveryHistory | source/shared/include/session.h:411-432 | `on_read` gets, in order, exactly the messages that reads completed with, each in the memory allocated for it and with its bytes and their number; a failed read leaves its bytes in the buffer. |
| SessionProofs.SessionStatsSound | source/shared/include/session.h:353-359 | Over session runs the statistics flag agrees with the timer and all four counters conserve what the handlers added. |
| SessionHistory.EndStopsStatistics | source/shared/include/session.h:283-441 | A failed opening, a read error and `close` stop the timer of the statistics; apart from the caller and the timer itself no other step touches flag or timer. |
| SessionHistory.StatisticsFollowTimer | source/shared/include/session.h:268-270 | In every run of a session the caller turns on statistics that are off and stops those that are on; an expired wait makes the callback publish, a cancelled one makes it turn the statistics off. |
| SessionProofs.CountersMatchTraffic | source/shared/include/session.h:413-416 | Between two calls that may reset the statistics, the counters gain exactly one message and its bytes for every message received and every write completed. |
| SessionProofs.RunRefinesPump | source/shared/include/session.h:213-222 | Every session run is, on its write queue, a run of the generic pump; it drains only with `on_write_done` set. |
| Pumps.GuardedRunKeepsInv | source/shared/include/session.h:361-388 | The invariant behind the queue results for the generic pump: exactly once and single flight, over every guarded run. |
| Pumps.GuardedRunKeepsOrder | source/shared/include/session.h:326-388 | Over every guarded run items are started in the order of submission, without a gap until one is disposed of unstarted. |
| Pumps.DrainFreeRunsAreGuarded | source/shared/include/session.h:213-222 | Runs without a drain need no guard, and an operation is outstanding exactly while the queue is non-empty. |
| Pumps.QueueAlwaysAttended | source/shared/include/session.h:213-222 | Over every run a non-empty queue has an operation outstanding. |
| Pumps.PumpTerminates | source/shared/include/session.h:326-388 | Once submissions stop, lambdas and completions are bounded by a measure of the state, and the queue shrinks with every completion. |
| Sessions.WebsocketSession.Write | source/shared/include/session.h:213-222 | `write` is the submission step: push, and start the write when the queue was empty, at once or by a dispatched lambda. |
| Sessions.WebsocketSession.WriteCompleteHandler | source/shared/include/session.h:350-388 | The completion handler, with its loop, is the completion step of the state machine on queue, logs, allocator and statistics. |
| Sessions.WebsocketSession.ClearQueue | source/shared/include/session.h:376-384 | The clearing loop disposes of everything queued, in order, through `on_write_done` if set and the allocator otherwise. |
| Sessions.WebsocketSession.HandshakeHandler | source/shared/include/session.h:291-307 | The handler is its two steps in a row: status and `on_ready`, then `perform_read`; or the failure step. |
| Sessions.WebsocketSession.AcceptedHandler | source/shared/include/session.h:309-322 | The same for a server session, where `on_ready` follows `perform_read`. |
| Sessions.WebsocketSession.ConnectHandler | source/shared/include/session.h:273-289 | A successful connect starts the handshake; a failed one aborts the attempt. |
| Sessions.WebsocketSession.ReadHandler | source/shared/include/session.h:411-432 | The read handler counts, allocates, reassembles and delivers the message, consumes its bytes and reads on while ONLINE. |
| Sessions.WebsocketSession.ReadErrorHandler | source/shared/include/session.h:433-457 | The error branch sets OFFLINE or ABORTED, disables statistics, drains after a clean close and reports the end. |
| Sessions.WebsocketSession.Close | source/shared/include/session.h:224-262 | `close` disables statistics, replaces its timer by one newly armed, and starts an async close only for an open stream and an ONLINE session. |
| Sessions.WebsocketSession.CloseTimedOut | source/shared/include/session.h:231-249 | Unless its wait was cancelled the timer callback cancels the next layer of an open stream and closes the next and the lowest layer if they are open, in this order, up to the first call that throws. |
| SessionProofs.CloseIsBacked | source/shared/include/session.h:228-249 | In every run, until a close completed or was forced after the latest call of `close`, a timer wait is left that will force it; there are never more forced closes than calls. |
| SessionHistory.CloseHistory | source/shared/include/session.h:251-261 | Every `close` of an open ONLINE session, and no other, starts one asynchronous close; each is pending until its completion, which calls `on_close` once. |
| SessionHistory.ForcedInOrder | source/shared/include/session.h:236-244 | A forced close makes the socket calls of the layers that are open, in order and up to the first that throws. |
| SessionProofs.CompletedCloseIsNotForced | source/shared/include/session.h:462-465 | A close that completes before a timer wait was due is not forced in any continuation without another call. |
| Sessions.WebsocketSession.CloseHandler | source/shared/include/session.h:462-472 | The close completion cancels the timer, sets OFFLINE and calls `on_close` if set. |
| Sessions.WebsocketSession.Destroy | source/shared/include/session.h:152-171 | The destructor hands queued messages over if it can, and throws exactly when `on_write_done` is unset and the queue is not empty. |
| ClientModel.MessagesAreConserved | source/shared/include/client.h:86-121 | In every run the allocated messages are the caller's and the queued ones without overlap, the counter counts them modulo 2^64, and it is zero once the caller holds nothing and no write is pending. |
| ClientModel.OnlyLiveMessagesAreFreed | source/shared/include/session.h:365-384 | In every run the messages a session step deallocates are allocated and distinct, so the counter never underflows. |
| ClientModel.WritesUseLiveMessages | source/shared/include/session.h:326-348 | In every run a message that is being written is allocated and not in the hands of the caller. |
| ClientModel.HandleMessageExact | source/shared/include/client.h:112-121 | The books still balance after a message was received if and only if `handle_message` gave back a message that was the caller's to give. |
| ClientHistory.ClientHearsAll | source/shared/include/client.h:96-121 | In every run of the client the three installed handlers are told everything: `on_ready` the result, `on_close` every completed close, `handle_message` every message with its bytes, and the end of reading; what was sent was written, in order. |
| ClientHistory.SendStarts | source/shared/include/client.h:86 | A message sent on an io thread is started at once if nothing is queued, one sent from elsewhere waits. |
| ClientSessions.SharedMessagesAreConserved | source/shared/include/client.h:62-125 | Over however many sessions a client creates, old ones included: the allocated messages are the caller's and those in the queues of all sessions, without overlap, and the shared counter counts them; it is zero once the caller holds nothing and no session has a write pending. |
| ClientSessions.SharedMessagesAreFreedOnce | source/shared/include/session.h:365-384 | What any one of the sessions gives back in a step is allocated and distinct. |
| ClientSessions.OnlyOneSessionMoves | source/shared/include/client.h:62-86 | A message is sent to the newest session, and a step of one session leaves all others alone. |
| ClientSessions.ReceiveOnExact | source/shared/include/client.h:112-121 | For all sessions together the books still balance after a message was received if and only if what came back was the caller's to give. |
| Clients.WebsocketClient.ReceiveMessage | source/shared/include/client.h:112-121 | The read callback inside the read handler is the receive step of the client's state machine. |
| Clients.WebsocketClient.SendMessage | source/shared/include/client.h:86 | `send` moves a message from the caller to the session's queue. |
| OpeningModel.ConnectAssertionsExact | source/shared/include/client.h:62-79 | With usable ports, in every run each `session_create` comes to exactly one call of `connect`, at once or when its own lookup is answered, in order; the assertions of `connect` hold if and only if the URL was valid and, when it needed the lookup, that yielded an endpoint. |
| OpeningModel.OpenerHistory | source/shared/include/client.h:62-79 | The URLs and answers that these results speak of are those of the calls and of the completed lookups, in order. |
| OpeningModel.FailedLookupAsserts | source/shared/include/client.h:69-72 | A run that fails: one lookup, answered with an error, after which `connect` is called with a valid URL that it asserts against. |
| OpeningModel.CreateExact | source/shared/include/client.h:62-79 | With usable ports, after a run that created sessions only when no lookup was waited for, every later call of `connect` is on the session of its own `session_create` if and only if no lookup is being waited for. |
| OpeningModel.TwoCreatesBreak | source/shared/include/client.h:62-79 | A run on the failing side: two calls of `session_create` in a row for a URL that needs a lookup. |
| OpeningModel.PatientConnectsOnce | source/shared/include/client.h:64-72 | In such runs no session is connected twice. |
| Openings.SessionOpener.SessionCreate | source/shared/include/client.h:62-79 | Makes a session, connects it at once if the URL is resolved, and otherwise queues the lookup; the assertions fail exactly for an invalid resolved URL; an exception leaves exactly when the lookup begins at once and its port text overflows. |
| Openings.SessionOpener.LookupAnswered | source/shared/include/client.h:70-72 | The resolver's completion with its callback is the answer step, also when the newest session was connected before; unless the next lookup threw, the assertions of `connect` hold exactly for a valid URL and a lookup with an endpoint. |
| Allocation.Allocator.Deallocate | source/shared/proto/proto_messages/generic_max_message.h:46-54 | Deallocation takes the message from the live set and one from the 64-bit counter. |
| Words.WrapIsModular | source/shared/proto/proto_messages/generic_max_message.h:62 | The counters keep their value modulo 2^64, in the range of 64 bits. |
| Locks.DeadlockFreedomExact | source/shared/include/session.h:353-354 | Any number of threads running any mix of write, write completion and both read branches is free of deadlock if and only if neither `on_write_done` nor `on_read` calls `write`. |
| Locks.LoneThreadExact | source/shared/include/session.h:353-456 | A thread alone runs its operation to the end, in the given number of lock operations, if and only if it does not write from `on_write_done`. |
| Locks.SectionsExclude | source/shared/include/session.h:215 | No two threads are ever in a section under the same lock. |
| Locks.OrderedMeansNotStuck | source/shared/include/session.h:445 | With the queue lock always taken before the stats lock, every state with an unfinished thread has an enabled step. |
| ListenerModel.HandOffIsExact | source/shared/include/devices/listener.h:108-132 | In every run that starts one loop at a time, exactly one accept, completion or hand-off is pending per loop without an error call; the lock is held exactly while a hand-off is posted and is never waited for; accepted connections reach the handler once and in order, errors come without one. |
| ListenerModel.CallHistory | source/shared/include/devices/listener.h:108-132 | The handler is called for every completed accept, in order, with success and that connection or with that very error and none; one call may be on its way. |
| ListenerModel.StatusHistory | source/shared/include/devices/listener.h:51-105 | The status is CLOSED at first and then the one set last, OPEN exactly by a `start_listen` whose four calls succeeded. |
| ListenerModel.AcceptorHistory | source/shared/include/devices/listener.h:54-105 | Connections can arrive exactly after a `start_listen` whose four calls succeeded, until `stop_listen` or another start. |
| ListenerModel.StartAgainExact | source/shared/include/devices/listener.h:51-98 | After any such run, a `start_listen` that succeeds keeps success and connection together in every continuation if and only if every loop before it has made its error call. |
| ListenerModel.TwoStartsBreak | source/shared/include/devices/listener.h:51-98 | A run on the failing side: two successful calls of `start_listen` in a row. |
| ListenerModel.LoopsAreConserved | source/shared/include/devices/listener.h:116-129 | Over every run, however often it is started, the loops still going are those started less the error calls made. |
| ListenerModel.StopEndsLoop | source/shared/include/devices/listener.h:100-105 | After `stop_listen` on a started listener, and until it is started again, the loop takes at most five more steps, can always take the next, and ends with its error call. |
| Listeners.ConnectionListener.StartListen | source/shared/include/devices/listener.h:51-98 | Reports the first error of open, option, bind and listen and is then CLOSED with no accept, or is OPEN with one accept outstanding. |
| Listeners.ConnectionListener.AcceptHandler | source/shared/include/devices/listener.h:108-115 | Takes the lock and posts the hand-off. |
| Listeners.ConnectionListener.RunHandOff | source/shared/include/devices/listener.h:116-129 | Moves the socket to the handler, releases the lock, and accepts again unless there was an error. |
| ResolverModel.ResolverServesInOrder | source/shared/include/devices/multi_resolver.h:59-94 | With usable ports, one lookup is outstanding, for the front request, exactly while requests wait; callbacks are made for a prefix of the requests, one each, in order, each with its own URL and exactly its lookup's endpoints. |
| ResolverModel.CallbackHistory | source/shared/include/devices/multi_resolver.h:80-94 | The i-th callback calls the handler of the i-th request, with the error code of the i-th lookup and the request's own host, port and path and that lookup's endpoints. |
| ResolverModel.CallbackConnectableExact | source/shared/include/devices/multi_resolver.h:87-93 | What a callback gets can be connected to if and only if the URL of its request was valid and its own lookup yielded an endpoint, whatever the error code. |
| ResolverModel.UnusablePortBlocks | source/shared/include/devices/multi_resolver.h:71-78 | After any such run, one more request leaves the resolver unable to block if and only if its port text does not overflow an int. |
| ResolverModel.ParsedUrlBlocks | source/shared/include/devices/multi_resolver.h:71-78 | Such a request exists: a URL text that parses, is valid, and blocks the resolver at once. |
| ResolverModel.CallbackNeedsNextLookup | source/shared/include/devices/multi_resolver.h:87-93 | A completed lookup leaves the queue, and its callback is made if and only if nothing waits or the next request's port text does not overflow. |
| ResolverModel.BlockedForever | source/shared/include/devices/multi_resolver.h:63-65 | A queue whose front lookup could not begin stays blocked and makes no further callback. |
| ResolverModel.StepIsPumpStep | source/shared/include/devices/multi_resolver.h:80-94 | With usable ports every step is a step of the generic pump that never stops or drains. |
| Resolvers.MultiResolver.ResolveUrl | source/shared/include/devices/multi_resolver.h:59-66 | Queues the request and begins the lookup of an empty queue; an exception leaves the request queued. |
| Resolvers.MultiResolver.ResolveHandler | source/shared/include/devices/multi_resolver.h:80-94 | Pops, begins the next lookup, then calls back with the results; an exception of the next lookup suppresses the callback. |
| StatsSpec.FlagAgreesWithTimer | source/shared/include/devices/stats.h:86-129 | Over any interleaving of calls, expiries, cancellations and callbacks, the flag is set exactly when one timer wait is outstanding. |
| StatsSpec.CallsStopTimerUnlessDue | source/shared/include/devices/stats.h:112-129 | On enabled statistics any sequence of enable and disable calls stops the timer if and only if it was not already due; so enabling twice stops it, and enabling right after disabling is lost. |
| StatsSpec.EnablingTwiceStops | source/shared/include/devices/stats.h:112-129 | A run on the failing side: after enabling twice the callback finds its wait cancelled and clears the flag. |
| StatsSpec.CountsAreConserved | source/shared/include/devices/stats.h:41-59 | For each counter, the values published since the latest reset plus the running total equal, modulo 2^64, everything added. |
| StatsSpec.PeriodIsPublished | source/shared/include/devices/stats.h:86-101 | A callback whose wait ran out publishes for each counter exactly what was counted since the publication or reset before, and counting begins anew. |
| StatsSpec.KeepsPublishing | source/shared/include/devices/stats.h:86-101 | Left alone, enabled statistics go on for good, and each callback publishes all counters. |
| StatsSpec.EnablingResets | source/shared/include/devices/stats.h:112-122 | Enabling disabled statistics forgets what was counted before and arms the timer. |
| SessionStatistics.SessionStats.SetEnabled | source/shared/include/devices/stats.h:112-129 | `set_enabled` resets, sets the flag and arms the timer, or cancels it. |
| SessionStatistics.SessionStats.DoStatCheck | source/shared/include/devices/stats.h:86-101 | The timer callback publishes all four counters and arms the timer again, or clears the flag after an error. |
| SessionStatistics.Stat.PreIncrement | source/shared/include/devices/stats.h:50 | The prefix operator counts one and returns the value before. |
| SessionStatistics.Stat.PostIncrement | source/shared/include/devices/stats.h:52 | The postfix operator counts one and returns the value after. |
| Urls.NormalForm | source/shared/include/net_url.h:86-144 | For every text that parses, writing back host, stored port and path and parsing again gives the identical URL, endpoints included. |
| Urls.ParsePlain | source/shared/include/net_url.h:93-118 | The prefix is optional: a text that begins with the host gives the same URL. |
| Urls.BadPortFails | source/shared/include/net_url.h:104-113 | A host with a port that is no number is refused, with or without the prefix, and host and port text stay. |
| Urls.BarePrefixFails | source/shared/include/net_url.h:93-122 | A text of the prefix alone is refused. |
| Urls.PathShape | source/shared/include/net_url.h:124-137 | The path has one separator before each token and none after the last, or is a single separator. |
| Urls.ParsedEndpoints | source/shared/include/net_url.h:139-141 | A parsed URL with an IPv4 host has the one endpoint of host and port, any other none. |
| Urls.ParseThrowsExact | source/shared/include/net_url.h:139-143 | The constructor throws if and only if the host is an IPv4 address and the port overflows or the library refuses the address; any other written URL parses. |
| Urls.ValidExact | source/shared/include/net_url.h:232-234 | A URL is valid if and only if it has a host and writing it down gives a text that is not refused, which then reads back as host, port and path. |
| Urls.PublicNormalForm | source/shared/include/net_url.h:176-209 | From the public accessors alone an equal URL can be written back if and only if there is a host or a usable port. |
| Urls.OverflowingTextParses | source/shared/include/net_url.h:218-220 | A text that parses to a valid URL whose `port()` throws. |
| Urls.NamelessTextIsLost | source/shared/include/net_url.h:176-183 | A text that parses and cannot be written back from the public accessors. |
| Urls.RepeatedSeparatorsDoNotMatter | source/shared/include/net_url.h:88-89 | Repeated and trailing separators change neither the tokens nor the result. |
| Urls.SuccessfulParts | source/shared/include/net_url.h:97-137 | A parsed host holds neither `/` nor `:`, the port is empty or a number, and one of the two is there. |
| Urls.PortArithmetic | source/shared/include/net_url.h:176-195 | `port()` denotes the stored number if it is at most 65535 and 80 otherwise, and passing `port_int()` through signed and unsigned 16 bits gives that number back. |
| Urls.PortThrowsExact | source/shared/include/net_url.h:218-223 | `port()` throws if and only if the port is a number above the range of an int. |
| Urls.PortIntIsShort | source/shared/include/net_url.h:185-195 | `port_int()` is a signed 16-bit number: the port up to 32767, the port less 65536 above, and without a port 80, or 0 without a default. |
| Urls.DigitsAreDigits | source/shared/include/net_url.h:243-247 | The digits are the ten decimal ones. |
| Urls.EndpointAgrees | source/shared/include/net_url.h:258-261 | Whenever a setter does not throw, the one endpoint carries the host and the number `port()` denotes. |
| Urls.SetterThrowsExact | source/shared/include/net_url.h:150-170 | A setter throws if and only if `port()` does or the host is no address, and then leaves the endpoints alone. |
| NetUrls.NetUrl.ParseString | source/shared/include/net_url.h:86-144 | The string constructor, with its loops, computes the parse, reports FAIL and SUCCESS as it, and throws exactly when it does. |
| NetUrls.NetUrl.SetPort | source/shared/include/net_url.h:155-163 | A text that is no number is refused without change; a number is stored and the endpoint derived again, or an exception leaves with the port stored. |
| NetUrls.NetUrl.CheckNumber | source/shared/include/net_url.h:243-247 | True exactly for non-empty texts of digits. |
| NetUrls.NetUrl.SetResolverResults | source/shared/include/net_url.h:199-203 | The copy loop replaces the endpoints by exactly the results. |
| AtomModel.RoundTrip | source/shared/proto/proto_messages/generic_max_message.h:132-165 | After any sequence of pushes, unpacking gives the normalised inputs concatenated in order. |
| AtomModel.ScalarFormat | source/shared/proto/proto_messages/generic_max_message.h:68-88 | A scalar is packed as one atom of its type with the field of that type, and an atom of another kind as the default type with no field. |
| AtomModel.ArrayFormat | source/shared/proto/proto_messages/generic_max_message.h:96-130 | An array is packed as one atom that holds every converted element. |
| AtomModel.MismatchReadsAsDefault | source/shared/proto/proto_messages/generic_max_message.h:136-161 | An atom whose field does not match its type reads as the default value, one of unknown type as nothing. |
| AtomModel.ScalarExact | source/shared/proto/proto_messages/generic_max_message.h:73-76 | A scalar integer survives exactly when it fits sint32. |
| AtomModel.NarrowingIsModular | source/shared/proto/proto_messages/generic_max_message.h:75 | Narrowing keeps an integer modulo 2^32, within sint32. |
| AtomModel.FixedPointExact | source/shared/proto/proto_messages/generic_max_message.h:90-94 | Pushing an unpacked list again is a fixed point if and only if every integer of it fits sint32. |
| MaxMessages.MaxMessage.PushAtoms | source/shared/proto/proto_messages/generic_max_message.h:90-94 | The loop appends one packed atom per input. |
| MaxMessages.MaxMessage.PushAtomArray | source/shared/proto/proto_messages/generic_max_message.h:96-130 | The copy loops append one array atom holding all converted elements. |
| MaxMessages.MaxMessage.GetAtoms | source/shared/proto/proto_messages/generic_max_message.h:132-165 | The nested loops yield the flattened message. |
| Buffers.MessageData.FromConstBuffers | source/shared/proto/proto_messages/proto_message_base.h:41-53 | The nested loops append the concatenation of the chunks, and nothing for text. |
| Buffers.ConsumeDropsPrefix | source/shared/include/session.h:430 | Consuming bytes of a chunked buffer drops exactly that prefix of the bytes, whatever the chunk boundaries. |
| Buffers.FlattenOne | source/shared/proto/proto_messages/proto_message_base.h:44-52 | One chunk flattens to itself; with the law for concatenation, flattening keeps every byte in order. |

## Left out

* Sockets, the websocket handshake, name lookup and strands themselves: only the contract
  that operations complete once, later, with any result.
* What a forced close does to the stream: operations then complete with errors, and
  `is_open()` changes, as both may at any time.
* Installing or replacing handlers while operations are pending, and the runs of a session
  that was connected or accepted twice (`PatientConnectsOnce` says when the client makes
  no second call).
* Handlers that are discarded without running when an io context is torn down.
* Re-entrant callbacks, except in `Locks.dfy`, where each of the two callbacks calls `write`
  at most once in an operation.
* `set_enabled` is one step; it touches unsynchronised fields from several threads.
* Timer callbacks that outlive the session or its statistics.
* What becomes of a session that a later `session_create` replaces. The client class is
  modelled in two parts, one for its messages and one for opening sessions.
* Lifetime counters such as `msg_pool_refc`, the message direction flag and logging.
* The connection handler is taken to move the socket out of the reference it is given.
* Which texts are IP addresses: two predicates of the address library, kept abstract;
  an endpoint records the text of its address.
* A URL text without any token: the constructor reads past its tokens, so `Parse` and
  `ParseString` require one.
* The two- and three-argument URL constructors, `set_path` and the comparison operators.
* Protobuf serialisation, `serialize` and `deserialize`; only the field structure.
* Floating point: 64-bit floats are reals, and rounding to 32 bits is a function that is
  idempotent; infinities and NaN are not modelled.
* The conversions between a host atom's types are functions; integers keep their value.
* Array pushes of a type other than long and float, which the code asserts against.
* The Max externals, the server class, the other message classes and the build files.
* `ClientModel.MessagesAreConserved`: assumes that callers send and release only messages
  they own, and that `handle_message` gives back such a message (`HandleMessageExact`).
