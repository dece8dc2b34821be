# Verified model of curl_httpfs

A Dafny model of the asynchronous HTTP client of the curl_httpfs extension for DuckDB, with
proofs. `dafny verify dfyconfig.toml` checks everything.

## What is modelled

**The event loop** (`MultiCurlManager`, Linux form). Any number of client threads construct a
request on an easy handle, push it under the mutex, write the eventfd and block on a future; one
background thread waits in epoll, drains the queue into the multi handle, and answers finished
transfers in `CheckMulti`.

- `EventLoop.dfy` is the interleaved step system. A step is what other threads can observe, so
  setting the promise, removing the handle and erasing the map entry are three steps, and a woken
  client may construct and push a new request on the same handle between them.
- `EventLoopInvariant.dfy` and `EventLoopSteps.dfy` hold the invariant of every run, one predicate
  per concern, and the proof that each step keeps it.
- `EventLoopTheorems.dfy` states the safety results over all runs, and `EventLoopProgress.dfy` that
  no client is ever stranded. `EventLoopBatch.dfy` follows the background thread through a batch of
  events: from where progress is possible, and which batches can fail. `EventLoopRuns.dfy`,
  `EventfdExtremes.dfy` and `EventLoopSharing.dfy` build the runs that show where a stronger claim
  fails, and exactly when.
- `EventLoopResponses.dfy` goes from the header sections and body pieces on the wire to what the
  client gets back.
- `MultiCurlManager.dfy` is the class, statement by statement. Other threads run between any two
  of its statements, and each method is proved to follow the step system.
- `TimerFd.dfy` is the timer under the loop.

**The socket tables under the loop.** `SocketCalls.dfy` says what libcurl's socket callbacks ask
for; `EpollReactor.dfy` and `KqueueReactor.dfy` model `SocketCallback` and its helpers over the
kernel's tables, for every sequence of callbacks.

**The thread pool.** `ThreadPoolSteps.dfy` (step system with sleeping, contending, running
workers, `notify_one` and spurious wake-ups), `ThreadPoolTheorems.dfy`, and the class in
`ThreadPool.dfy`.

**Response assembly.** `RequestInfo.dfy` folds libcurl's header and body callbacks into blocks and
responses; `HeaderRoundTrip.dfy` prints header sections and reads them back;
`MultiCurlClient.dfy` is the direct request path (`Put`, `Post`, `Delete`) with its shared
accumulator.

**The TCP connection report.** `TcpAddress.dfy`, `TcpConnectionFetcher.dfy` and
`TcpConnectionQueryFunction.dfy`: parse, aggregate, sort, hand out in chunks.

`Wrappers.dfy`, `Strings.dfy` and `Sums.dfy` are shared helpers.

## What is assumed of the surroundings

- libcurl: a handle can be added once until it is removed; data and one DONE message come for
  added handles only; `still_running` is the number of added handles not yet done; the timer
  callback runs inside `curl_multi_socket_action`, `curl_multi_add_handle` and
  `curl_multi_remove_handle`; a socket callback
  gets the pointer last given to `curl_multi_assign`, or null after a REMOVE. Data of a transfer
  goes to wherever the handle's callback pointers point at that moment.
- An easy handle stays alive until it has been removed from the multi. The code does not enforce
  this.
- No request is made on an easy handle while another on it, of whatever thread, is unanswered
  (`Disciplined`). Threads may otherwise share handles. `SharingExactly` shows that this is just
  what the "not already ongoing" assertion needs.
- Sockets are open descriptors, different from the timerfd and the eventfd.
- Clocks, the network and scheduling are nondeterministic choices.

## Where the code does not do what one may expect

- The eventfd counter is not bounded by two writes per client between reads. It reaches three per
  client as soon as there are two clients (`ThreePerClientReached`); two is a bound exactly for at
  most one client (`TwoPerClientExactly`), three always (`EventfdBound`).
- The assertion on the timer read fails exactly when the timer was set again since the batch was
  fetched and has not expired since (`TimerReadExactly`, `TimerReadCanFail`). A batch can lead to
  that exactly when a socket comes before the timer in it, or the eventfd does and some request is
  or can still be queued (`BatchFailsExactly`). Nothing else strands a client
  (`OnlyTimerReadStrands`, `NextTimerExactly`).
- A field with nothing after its colon makes the header callback throw, and so does a status line
  that ends in its first colon (`AcceptedExactly`, `EmptyTextThrows`, `StatusColonThrows`).
- A failed direct transfer leaves its headers and body for the next one (`IsolatedExactly`).
- With two callers of `Wait`, one can sleep on after all jobs have finished (`MissedExactly`).
- src/include/thread_pool.hpp:29 promises that `Wait` returns once the pool is dead. It does for
  every caller exactly when, at the stop, no more callers were asleep than workers held a job; the
  excess sleeps on (`StrandedCount`, `StrandedExactly`), so one job in hand does not save two
  callers (`JobInHandStrandsOne`).
- Descriptor 0 is never taken out of the kernel's tables (`ZeroAgreesExactly`), and on a kernel
  that stops at the first failing change a write-only socket stays registered in kqueue after its
  REMOVE (`FiltersExactly`, `EarlyStopExactly`).
- Addresses are told apart by their text if and only if they are printed in 8 digits
  (`ToldApartExactly`). /proc/net/tcp6 prints 32, so all its connections count for 0.0.0.0
  (`LongAddressesCountTogether`, `LongAddressesMerge`).

## Model

| member | source | states |
|---|---|---|
| `EventLoopSteps.RunInv` | src/multi_curl_manager.cpp:35-418 | every state of every run of any number of clients satisfies the whole invariant: queue order, places, promises, tables, pointers, messages, wake-ups, timer |
| `EventLoopTheorems.ExactlyOnePlace` | src/multi_curl_manager.cpp:375-396 | each queued request is in exactly one of queue, hand, ongoing_requests, erased, and is queued and erased once |
| `EventLoopTheorems.PromiseSetOnce` | src/multi_curl_manager.cpp:74 | no step but CheckMulti's set_value changes a promise, and only an unset one |
| `EventLoopTheorems.PromiseKept` | src/multi_curl_manager.cpp:74 | a promise once set keeps its value on the rest of any run |
| `EventLoopTheorems.OwnResponse` | src/multi_curl_manager.cpp:398-418 | a client that returns has, field by field, the response to its own request: its own transfer's code in 16 bits and its own url whatever the result; on success exactly the body bytes of that transfer in order and its last block's pairs but the pseudo-header; on failure no body, no headers, and the last status line or libcurl's text |
| `EventLoopResponses.ResponseFromWire` | src/multi_curl_manager.cpp:43-74 | when that transfer brought k header sections and body pieces, the response is, written out, the code, the url, the pieces joined and the last section's own pairs, or the error |
| `EventLoopTheorems.FirstInFirstOut` | src/multi_curl_manager.cpp:379-394 | handles added, then the request in hand, then the queue, equal the pushes in lock order |
| `EventLoopTheorems.AssertionsHold` | src/multi_curl_manager.cpp:387-391 | no assertion of the background thread fires on any disciplined run, except possibly the timer read |
| `EventLoopTheorems.TablesAgree` | src/multi_curl_manager.cpp:76-79 | ongoing_requests and the multi name the same handles outside the add and retire steps, and PRIVATE names the entry's request while it is unanswered |
| `EventLoopTheorems.NeverStuck` | src/multi_curl_manager.cpp:330-373 | the loop can always take its next step, and a blocked loop with a queued request can be woken |
| `EventLoopTheorems.NoLostWakeUp` | src/multi_curl_manager.cpp:401-410 | outside a drain each queued request has a readable eventfd or a client about to write it |
| `EventLoopTheorems.EventfdBound` | src/multi_curl_manager.cpp:352-356 | the eventfd counter never exceeds three per client |
| `EventLoopTheorems.WritesSucceed` | src/multi_curl_manager.cpp:408-410 | the write assertion never fires while three per client fit the eventfd |
| `EventLoopTheorems.TimerFollowsRequests` | src/multi_curl_manager.cpp:95-107 | the timer has libcurl's last setting unless EventCallback cleared it, and it clears it only when nothing is ongoing |
| `EventLoopTheorems.TimerChangesExactly` | src/multi_curl_manager.cpp:85-107 | one step changes the timer's setting only if it is libcurl's request, or EventCallback's after a CheckMulti that leaves nothing ongoing, which switches it off; TimerCallback's CheckMulti leads to no such step |
| `EventLoopTheorems.CallerFollowsEvent` | src/multi_curl_manager.cpp:352-361 | curl_multi_socket_action and CheckMulti run for EventCallback only after a socket event and for TimerCallback only after the timer's |
| `EventLoopTheorems.TimerReadExactly` | src/multi_curl_manager.cpp:85-89 | the timer read fails if and only if the timer was re-armed in this batch and has not expired since |
| `EventLoopTheorems.DrainMeasure` | src/multi_curl_manager.cpp:375-396 | queue length plus clients still able to push drops with every pop and never grows in a drain |
| `EventLoopTheorems.DrainBounded` | src/multi_curl_manager.cpp:375-396 | one drain pops at most as many requests as there are clients, however they keep pushing |
| `EventfdExtremes.ThreePerClientReached` | src/multi_curl_manager.cpp:401-417 | for every number of clients from two on, some run brings the counter to exactly three per client |
| `EventfdExtremes.TwoPerClientExactly` | src/multi_curl_manager.cpp:401-417 | two writes per client between reads is a bound if and only if there is at most one client |
| `EventLoopRuns.HandleReusedInWindow` | src/multi_curl_manager.cpp:74-79 | a run in which a handle is queued again while its answered request is still in the map and in the multi |
| `EventLoopRuns.TimerReadCanFail` | src/multi_curl_manager.cpp:85-89 | a run in which the timer-read assertion fires |
| `EventLoopSharing.SharingExactly` | src/multi_curl_manager.cpp:387-391 | with the loop in epoll_wait, a new request on a handle can lead to a failing not-ongoing assertion if and only if another request on that handle is unanswered |
| `EventLoopSharing.SharedHandleFails` | src/multi_curl_manager.cpp:389-390 | a run in which two threads sharing a handle make the not-ongoing assertion fire |
| `EventLoopProgress.EveryCallCanReturn` | src/multi_curl_manager.cpp:398-418 | from every reachable state with the loop in epoll_wait, some continuation brings every client out of HandleRequest |
| `EventLoopBatch.OwnRun` | src/multi_curl_manager.cpp:336-372 | left alone in any state that has not failed, the background thread finishes the batch or fails on the timer read: it finishes if no timer event is left, and fails if one is and the timer stays re-armed |
| `EventLoopBatch.ReturnWithoutTimer` | src/multi_curl_manager.cpp:336-418 | from every reachable state that has not failed and has no timer event left in its batch, wherever the background thread is, every client can be brought out of HandleRequest |
| `EventLoopBatch.OnlyTimerReadStrands` | src/multi_curl_manager.cpp:336-418 | from any reachable state every client can be brought back if and only if the run can get past the timer event of the current batch |
| `EventLoopBatch.NextTimerExactly` | src/multi_curl_manager.cpp:85-107 | with the timer event next, every client can be brought back if and only if the timer has an expiry to read or is still set |
| `EventLoopBatch.BatchFailsExactly` | src/multi_curl_manager.cpp:336-372 | the batch just fetched can lead to a failing timer read if and only if some event comes before the timer's, and that is not the eventfd alone with nothing queued and every client waiting |
| `TimerFd.Spec` | src/multi_curl_manager.cpp:161-175 | the setting is off exactly for a negative timeout, else the same duration in a legal form, with zero not off |
| `MultiCurlManager.MultiCurlManager.ProcessPendingRequests` | src/multi_curl_manager.cpp:375-396 | follows the step system, terminates, trips no assertion, and leaves everything pushed so far added |
| `MultiCurlManager.MultiCurlManager.InsertRequest` | src/multi_curl_manager.cpp:387-391 | enters the request; its handle is not ongoing |
| `MultiCurlManager.MultiCurlManager.AddToMulti` | src/multi_curl_manager.cpp:394 | puts the handle in the multi, with any number of timer callbacks inside the call and other threads between them |
| `MultiCurlManager.MultiCurlManager.CheckMulti` | src/multi_curl_manager.cpp:35-81 | handles every message, terminates, trips no assertion, and leaves ongoing just what libcurl still runs |
| `MultiCurlManager.MultiCurlManager.BuildResponse` | src/multi_curl_manager.cpp:43-73 | one step: every field of the response is that of the request that PRIVATE names and its own transfer, and the body is moved out on success |
| `MultiCurlManager.MultiCurlManager.MakeResponse` | src/multi_curl_manager.cpp:46-73 | the statements, with the loop over the last block's pairs, give ManagedResponse, which ManagedExactly determines |
| `MultiCurlManager.MultiCurlManager.SetPromise` | src/multi_curl_manager.cpp:74 | one step: the promise, not yet set, gets the response |
| `MultiCurlManager.MultiCurlManager.RemoveFromMulti` | src/multi_curl_manager.cpp:76 | one step: the handle leaves the multi |
| `MultiCurlManager.MultiCurlManager.EraseRequest` | src/multi_curl_manager.cpp:77-79 | one step: the entry, which is there, is erased |
| `MultiCurlManager.MultiCurlManager.TimerCallback` | src/multi_curl_manager.cpp:85-93 | succeeds exactly when the timer was not re-armed since the batch was fetched, or expired since |
| `MultiCurlManager.MultiCurlManager.EventCallback` | src/multi_curl_manager.cpp:95-107 | still_running is not positive exactly when nothing is ongoing, and then the timer is off |
| `MultiCurlManager.MultiCurlManager.MultiTimerCallback` | src/multi_curl_manager.cpp:161-179 | one step: the timer is programmed as libcurl asks |
| `MultiCurlManager.MultiCurlManager.HandleEvents` | src/multi_curl_manager.cpp:336-372 | dispatches a whole batch back to epoll_wait, other threads and the clock running between any two events; cannot fail when the timer event is absent or first |
| `MultiCurlManager.MultiCurlManager.ConstructRequest` | src/curl_request.cpp:8-18 | one step: a new request takes over PRIVATE and the callback data of its handle |
| `MultiCurlManager.MultiCurlManager.PushRequest` | src/multi_curl_manager.cpp:401-404 | one step: the request goes to the end of the queue |
| `MultiCurlManager.MultiCurlManager.WriteEvent` | src/multi_curl_manager.cpp:408-410 | succeeds exactly when the counter has room, up to 2^64 - 2, which it has whenever three per client fit |
| `MultiCurlManager.MultiCurlManager.HandleRequest` | src/multi_curl_manager.cpp:398-418 | if it returns, every field of the response is that of this very request and its own transfer, as in OwnResponse |
| `EpollReactor.InterestMatches` | src/multi_curl_manager.cpp:109-159 | after any callbacks each nonzero socket has EPOLLIN (bit 0) if and only if its last action has CURL_POLL_IN, EPOLLOUT (bit 2) if and only if it has CURL_POLL_OUT, no other bit, and no entry after REMOVE; the timerfd and the eventfd stay watched; no DEL fails |
| `SocketCalls.LastAskedExactly` | src/multi_curl_manager.cpp:144-159 | the last action on a socket is the last call's, unless that was CURL_POLL_REMOVE |
| `EpollReactor.AddRefusedExactly` | src/multi_curl_manager.cpp:132-134 | an ADD meets a watched descriptor if and only if two actions name descriptor 0 |
| `EpollReactor.ZeroAgreesExactly` | src/multi_curl_manager.cpp:112-126 | descriptor 0 always agrees if and only if it is never removed and never changes its events |
| `EpollReactor.ZeroStaysAfterRemove` | src/multi_curl_manager.cpp:109-117 | after an action and a REMOVE descriptor 0 is still watched |
| `EpollReactor.Reactor.SocketCallback` | src/multi_curl_manager.cpp:144-159 | the tables become what OnCall says, and it throws exactly where OnCall fails |
| `EpollReactor.Reactor.SetSockInfo` | src/multi_curl_manager.cpp:119-135 | the object and the interest set afterwards, the entry bit by bit as the action asks, and the one error that is thrown |
| `EpollReactor.Reactor.RemoveSockInfo` | src/multi_curl_manager.cpp:109-117 | the interest set loses a nonzero descriptor, and the one error that is thrown |
| `EpollReactor.Reactor.AddSockInfo` | src/multi_curl_manager.cpp:137-142 | a new object of its own is assigned to the socket |
| `EpollReactor.HandleAll` | src/multi_curl_manager.cpp:144-159 | the class over any sequence of callbacks ends with every nonzero socket watched bit by bit as last asked |
| `KqueueReactor.FiltersExactly` | src/multi_curl_manager.cpp:195-223 | on either kernel a filter is registered if and only if some call asked for it and no REMOVE has taken it away: all filters go on a kernel that goes on after a failure, only a reader's on one that stops |
| `KqueueReactor.WatchesAtLeast` | src/multi_curl_manager.cpp:195-245 | on either kernel every socket is watched for all its last action asks; on the one that goes on, for nothing after REMOVE |
| `KqueueReactor.AtLeastEpoll` | src/multi_curl_manager.cpp:195-245 | after the same callbacks the epoll events are just what was last asked for, either kernel covers them, and the one that goes on registers nothing that epoll has dropped |
| `KqueueReactor.HandleAll` | src/multi_curl_manager.cpp:232-245 | the class over any sequence of callbacks, on either kernel, watches every socket for its last action |
| `KqueueReactor.EarlyStopExactly` | src/multi_curl_manager.cpp:195-206 | a kernel stopping at the first failed change agrees if and only if no REMOVE meets a write-only socket |
| `KqueueReactor.WriteOnlyStays` | src/multi_curl_manager.cpp:195-206 | on such a kernel a write-only socket is still registered after REMOVE |
| `KqueueReactor.Reactor.SocketCallback` | src/multi_curl_manager.cpp:232-245 | the tables become what OnCall says |
| `KqueueReactor.Reactor.SetSockInfo` | src/multi_curl_manager.cpp:208-223 | adds the asked filters and removes none |
| `KqueueReactor.Reactor.RemoveSockInfo` | src/multi_curl_manager.cpp:195-206 | deletes both filters of a nonzero descriptor as far as the kernel goes |
| `ThreadPoolTheorems.RunInv` | src/thread_pool.cpp:13-65 | every state of every run keeps the idle count, job order, job places, work conservation and the single waiter's promise |
| `ThreadPoolTheorems.WorkConserving` | src/include/thread_pool.hpp:51-55 | while the pool runs, queued jobs beside a sleeper never outnumber awake workers heading for the queue |
| `ThreadPoolTheorems.JobsAccounted` | src/thread_pool.cpp:20-36 | each pushed job is in exactly one of queued, running on one worker, finished; taken in push order; idle count exact |
| `ThreadPoolTheorems.WaitMeansFinished` | src/thread_pool.cpp:43-54 | Wait's predicate on a running pool holds if and only if all pushed jobs have finished and every worker has let go |
| `ThreadPoolTheorems.SingleWaiterNeverMisses` | src/thread_pool.cpp:33-37 | a single caller never sleeps while its predicate holds and the pool runs |
| `ThreadPoolTheorems.MissedExactly` | src/thread_pool.cpp:33-54 | a finished running pool can have a sleeper in Wait and nobody on the way if and only if two or more may call Wait |
| `ThreadPoolTheorems.MissedExactlyByTwo` | src/thread_pool.cpp:36 | the completing step leaves a sleeper if and only if two were asleep |
| `ThreadPoolTheorems.QuietOnlyByRestore` | src/thread_pool.cpp:33-37 | no other step of a running pool makes Wait's predicate true |
| `ThreadPoolTheorems.ShutdownProgress` | src/thread_pool.cpp:21-24 | after a stop no job starts, and each worker step lowers the steps that remain by one |
| `ThreadPoolTheorems.WorkersCanExit` | src/thread_pool.cpp:56-65 | each unreturned worker of a stopped pool can take a step |
| `ThreadPoolTheorems.RemainingBound` | src/thread_pool.cpp:56-65 | at most three steps per worker remain after a stop |
| `ThreadPoolTheorems.StrandedCount` | src/thread_pool.cpp:56-65 | for any number of callers, just as many are left asleep as exceeded at the stop the workers holding a job |
| `ThreadPoolTheorems.StrandedExactly` | src/thread_pool.cpp:56-65 | nobody is left asleep if and only if no more callers were asleep at the stop than workers held a job |
| `ThreadPoolTheorems.LoneCallerStranded` | src/thread_pool.cpp:56-65 | a lone caller asleep at the stop stays asleep if and only if no worker held a job then |
| `ThreadPoolTheorems.JobInHandStrandsOne` | src/thread_pool.cpp:33-65 | a run that leaves one of two callers asleep although a job was in hand at the stop |
| `ThreadPoolTheorems.ShutdownStrandsWaiter` | src/thread_pool.cpp:56-65 | a run that leaves a caller asleep beside a dead pool |
| `ThreadPool.ThreadPool.Push` | src/include/thread_pool.hpp:44-57 | one step: the job joins the queue and one sleeper, if any, is notified |
| `ThreadPool.ThreadPool.WorkerCheck` | src/thread_pool.cpp:20-28 | one step: take the front job, sleep, or return when stopped |
| `ThreadPool.ThreadPool.WorkerRestore` | src/thread_pool.cpp:33-37 | one step: the idle count is restored and one waiter, if any, is notified |
| `ThreadPool.ThreadPool.Wait` | src/thread_pool.cpp:43-54 | when it returns, the pool is stopped or every job pushed so far, by anyone, has finished |
| `ThreadPool.ThreadPool.Destroy` | src/thread_pool.cpp:56-65 | terminates with every worker returned and no job started after the stop |
| `RequestInfo.LineEnds` | src/curl_request.cpp:46-52 | one "\r\n" or "\n" is taken off the end of a line, and nothing else |
| `RequestInfo.OnlyTheLine` | src/curl_request.cpp:46-52 | how a line ends makes no difference |
| `RequestInfo.BeginsExactly` | src/curl_request.cpp:54-59 | a line begins a block if and only if it starts with "HTTP/"; the blocks before stay as they are, the open one up to the new pair |
| `RequestInfo.Accumulated` | src/curl_request.cpp:76-81 | over any stream the body grows by just the body bytes in order, and url and code stay |
| `RequestInfo.ManagedExactly` | src/multi_curl_manager.cpp:46-73 | a response is CheckMulti's if and only if status, url, body, error and headers are the stated ones, on success and on failure |
| `RequestInfo.WithoutExactly` | src/multi_curl_manager.cpp:66-71 | every pair with the pseudo-header's name is left out, and all others stay in order |
| `RequestInfo.HeaderFailsExactly` | src/curl_request.cpp:61-72 | a header line throws if and only if its first colon ends it, or it is a field before any status line |
| `RequestInfo.FailureIsReported` | src/multi_curl_manager.cpp:56-62 | a failed transfer, managed or direct, reports the last status line received, or libcurl's own text if there is none |
| `HeaderRoundTrip.SectionsRoundTrip` | src/curl_request.cpp:40-74 | folding k printed sections (sections 4 and 5 of RFC 9112) appends exactly those k blocks; a status line with a colon adds a pair of its own |
| `HeaderRoundTrip.StatusLineBegins` | src/curl_request.cpp:54-59 | "HTTP/" followed by anything, as long as its first colon does not end it, begins a block with the whole line as its first pair |
| `HeaderRoundTrip.ResponseRoundTrip` | src/multi_curl_manager.cpp:46-73 | both responses to k sections and body pieces, written out for every result: a failed one has the code, the error and, when managed, the url; a successful response carries the last section's pairs only and the body joined; the status pseudo-header shows on the direct path only, and the managed path drops any field of that name |
| `HeaderRoundTrip.OwnPairsKept` | src/multi_curl_manager.cpp:63-73 | a managed response has all pairs of the section unless a field bears the pseudo-header's name |
| `HeaderRoundTrip.AcceptedExactly` | src/curl_request.cpp:63-72 | a chain of legal sections is accepted if and only if every field has text after its colon and no status line ends in its first colon |
| `HeaderRoundTrip.StatusColonThrows` | src/curl_request.cpp:63-67 | a section without fields on which the callback throws |
| `HeaderRoundTrip.EmptyTextThrows` | src/curl_request.cpp:67 | every field without text makes the callback throw |
| `HeaderRoundTrip.ValueRoundTrip` | src/curl_request.cpp:65-71 | a value printed after a colon and a space is read back unchanged, and so is one right after the colon that starts with no space |
| `MultiCurlClient.LeftOver` | src/multi_curl_client.cpp:277-298 | the accumulator holds exactly what all transfers since the last success delivered |
| `MultiCurlClient.ServeExactly` | src/multi_curl_client.cpp:241-298 | after any requests on the client the next one gives, field by field, its own code, its own url on success, the body left over followed by its own bytes, the last block or the error; and Post's buffer_out is that body whatever the result |
| `MultiCurlClient.DirectRoundTrip` | src/multi_curl_client.cpp:224-298 | with nothing left over, the response and buffer_out written out from the sections and pieces sent |
| `MultiCurlClient.IsolatedExactly` | src/multi_curl_client.cpp:277-298 | every next request, its header lines as libcurl delivers them, is answered as on a new client if and only if nothing lasting came since the last success |
| `MultiCurlClient.QuietIsolates` | src/multi_curl_client.cpp:277-298 | with nothing lasting since the last success, any sequence of callbacks whatever is taken as on a new client |
| `MultiCurlClient.IsolatedAfterSuccesses` | src/multi_curl_client.cpp:289-297 | after a success a response depends on its own transfer alone |
| `MultiCurlClient.FailureLeaksBody` | src/multi_curl_client.cpp:280-288 | a failed transfer's body comes back in front of the next response's |
| `MultiCurlClient.RequestInfoObject.WriteHeader` | src/curl_request.cpp:40-74 | the blocks afterwards, and what is left when it throws |
| `MultiCurlClient.RequestInfoObject.WriteBody` | src/curl_request.cpp:76-81 | the bytes are appended |
| `MultiCurlClient.RequestInfoObject.Reset` | src/multi_curl_client.cpp:270-275 | the accumulator is as new |
| `MultiCurlClient.MultiCurlClient.TransformResponseCurl` | src/multi_curl_client.cpp:277-298 | the response, and the reset on success only |
| `MultiCurlClient.MultiCurlClient.Put` | src/multi_curl_client.cpp:162-184 | the response and the accumulator are Serve's, and the response field by field as in ServeExactly |
| `MultiCurlClient.MultiCurlClient.Delete` | src/multi_curl_client.cpp:203-222 | the same for Delete |
| `MultiCurlClient.MultiCurlClient.Post` | src/multi_curl_client.cpp:224-248 | the same; buffer_out is the body left over followed by the bytes of this transfer |
| `TcpAddress.AddressRoundTrip` | src/tcp_connection_fetcher.cpp:83-102 | HexToIP of the 8-digit little-endian print of any address is the one text that reads, part by part, as its bytes a.b.c.d in decimal |
| `TcpAddress.Loopback` | src/tcp_connection_fetcher.cpp:83-102 | "0100007F" is read as 127.0.0.1 |
| `TcpAddress.ByteIsStrtoul` | src/tcp_connection_fetcher.cpp:92 | two characters, whatever they are, give strtoul's value to base 16, cut to a byte, or its failure |
| `TcpAddress.HexValueExactly` | src/tcp_connection_fetcher.cpp:92 | the digits, in either case |
| `TcpAddress.DottedInjective` | src/tcp_connection_fetcher.cpp:98-101 | different addresses have different texts |
| `TcpAddress.ToldApartExactly` | src/tcp_connection_fetcher.cpp:83-102 | for every digit count, different printed addresses get different texts if and only if there are 8 digits (or none) |
| `TcpAddress.HexToIP` | src/tcp_connection_fetcher.cpp:83-102 | the byte loop and the reversal compute IpOf, the conversion error included |
| `TcpConnectionFetcher.AggregateCounts` | src/tcp_connection_fetcher.cpp:127-147 | the map is the multiplicity of each address, and it throws if and only if some line is unreadable |
| `TcpConnectionFetcher.OrderIndependent` | src/tcp_connection_fetcher.cpp:127-147 | the counts, or the failure, do not depend on the order of the lines |
| `TcpConnectionFetcher.LinesExactly` | src/tcp_connection_fetcher.cpp:121-127 | the lines put together again are the text; the first is dropped, an unended last one counts |
| `TcpConnectionFetcher.RowExactly` | src/tcp_connection_fetcher.cpp:127-147 | a line counts if and only if it has four words and a colon in the third, and then for what HexToIP makes of the third word up to its first colon |
| `TcpConnectionFetcher.LineReadBack` | src/tcp_connection_fetcher.cpp:132-146 | a line as the kernel prints it counts for the text of its IPv4 address read part by part, or for 0.0.0.0 if that is IPv6 |
| `TcpConnectionFetcher.TableReadBack` | src/tcp_connection_fetcher.cpp:121-147 | a whole printed file gives each of those texts its number of connections |
| `TcpConnectionFetcher.LongAddressesCountTogether` | src/tcp_connection_fetcher.cpp:151-157 | a whole printed tcp6 file counts as 0.0.0.0 with the number of all its connections |
| `TcpConnectionFetcher.LongAddressesMerge` | src/tcp_connection_fetcher.cpp:84-86 | two printed 32-digit lines of different addresses that count as one |
| `TcpConnectionFetcher.ParseProcTCP` | src/tcp_connection_fetcher.cpp:106-148 | the counts passed by reference become Aggregate of the data lines |
| `TcpConnectionFetcher.GetTcpConnectionNum` | src/tcp_connection_fetcher.cpp:151-157 | both files count together |
| `Strings.LessExactly` | src/tcp_connection_query_function.cpp:68-70 | one address comes before another if and only if it is a proper beginning of it or has the smaller character at the first difference |
| `TcpConnectionQueryFunction.OneListing` | src/tcp_connection_query_function.cpp:68-70 | there is only one increasing listing of a map |
| `TcpConnectionQueryFunction.TotalIsRows` | src/tcp_connection_query_function.cpp:61-66 | the counts add up to the number of lines counted |
| `TcpConnectionQueryFunction.FuncInit` | src/tcp_connection_query_function.cpp:54-73 | whatever the map's order, the rows are the strictly increasing listing of the counts |
| `TcpConnectionQueryFunction.TcpConnectionData.TableFunc` | src/tcp_connection_query_function.cpp:75-92 | one call emits the next rows, as many as fit, and nothing once all are out |
| `TcpConnectionQueryFunction.Emit` | src/tcp_connection_query_function.cpp:75-92 | the chunks concatenate to the rows, in exactly n/size rounded up non-empty calls |
| `TcpConnectionQueryFunction.Report` | src/tcp_connection_query_function.cpp:54-92 | end to end: increasing, complete, counts adding up, failing exactly on an unreadable line |
| `TcpConnectionQueryFunction.ReportPrinted` | src/tcp_connection_query_function.cpp:54-92 | on files as the kernel prints them, the rows are the increasing listing of the IPv4 addresses with their numbers of connections, and of 0.0.0.0 with all IPv6 connections |
| `TcpConnectionQueryFunction.ReportIndependentOfOrder` | src/tcp_connection_query_function.cpp:68-70 | the same lines in any order give the same rows |

## Left out

- The kqueue event loop and its repeating timer; only the kqueue socket table is modelled.
- The readiness bits that EventCallback hands on to libcurl, and what libcurl does with them.
- libcurl's internals, TLS, HTTP/2 multiplexing, connection limits, redirects as libcurl decides them.
- System calls other than the listed effects, errno texts, and the exits and throws on failing system calls.
- A header callback that throws inside the event loop: such a delivery ends the modelled run, because what libcurl's C frames then do is undefined; the direct path says nothing of a client after a throw.
- Fairness: whether the network does finish a transfer and the scheduler runs every thread, so that a client does return; that it can is `EveryCallCanReturn`.
- Easy-handle options other than PRIVATE and the callback targets, and so mixing Get or Head with Put, Post or Delete on one client, which re-points those targets.
- `MultiCurlClient` setup, request headers, request counters and the response and content handlers of Get.
- `HTTPHeaders` as a map: a block is kept as the pairs in the order of insertion, so duplicate or case-variant names are not merged.
- The status enum, the reason text and the wording of `curl_easy_strerror`; a code is the 16-bit number stored.
- Integer widths of counts, indices and milliseconds, which are unbounded here.
- `std::packaged_task`, futures and exceptions of thread-pool jobs: a job is a number that always finishes.
- Reading the /proc files and the macOS netstat parser: the report starts from the two texts.
- DuckDB's bind function, extension loading, settings and HTTP utility switching.
- Memory: requests and SockInfo objects are never reused after being freed.
- MultiCurlManager.MultiCurlManager.HandleRequest: says nothing of a call that has not returned; the number of looks at the future is a parameter.
- ThreadPool.ThreadPool.Wait: says nothing of a call that has not returned; the number of wake-ups waited for is a parameter.
