# A verified model of the ltio core

ltio is a C++ network I/O framework with its own lock-free containers, coroutine scheduler,
message loop, request channels and a boolean indexer. This project models the parts of it that are
hardest to get right and proves what they promise:

- **Lock-free free lists** (`NodeChain`, `FreeList`, `TaggedList`). Each list is a transition
  system with one transition per atomic operation and any number of threads. The reference-counted
  list is shown safe by an inductive invariant over its packed count-and-bit words; the tagged list
  is shown linearizable to an atomic stack.
- **Coroutines and wakeups** (`Resumers`, `CoRunner`, `CoRuns`, `RunContext`, `LinkedList`, `CoroLists`,
  `CoMutex`, `MutexRuns`, `Wakeup`). Resume ids and the ready, free and gc lists; how one `Run` hands tasks to
  coroutines, those of the queue all runners share included; the intrusive list, and the runner's
  three lists down to its pointers; the hand-off mutex; the flag-and-eventfd protocol for posting to a
  loop from other threads.
- **Channels and byte streams** (`ClientChannel`, `QueuedChannel`, `QueuedRuns`, `AsyncChannel`,
  `AsyncRuns`, `IoBuffer`, `TcpChannel`). Every event of a request channel, and every pattern of short writes, EAGAIN, EINTR
  and failures of a socket.
- **Boolean index** (`EntryIds`, `Cursors`, `ScanSpec`, `IndexScanner`, `BooleanQuery`,
  `BooleanIndexer`, `Sorting`). Bit-packed ids, hybrid cursors, the merge loop, the builder, and the meaning of
  a query, from `AddDocument` to the answer of `Retrieve`.
- **Arithmetic and cache** (`CheckedMath`, `TimeDelta`, `LruCache`).

`Wrappers`, `Sequences` and `Numbers` hold what several modules share.

Objects that the source updates in place are classes whose methods are proved against functions or
relations on values; the laws over whole runs are lemmas about those. Concurrent code is modelled as
runs of a transition system, `IsRun` or `Reaches`, that start in an initial state. What a run is to
have done is told by its events: the tasks posted, the resumers called, the messages received.

## Where the code does less than it seems to

- `FreeList` needs fewer than 2^31 - 1 threads: with that many, the reference count can run into the
  should-be-on-list bit and the assertion in `try_get` can fail (`FreeList.ThreadBoundIsExact`).
- `FreeList` is no linearizable bag: a null from `try_get` means that the list was empty at some
  instant of the call (`FreeList.RunNullMeansEmpty`), not that every node had an owner. An `add` links
  the node exactly if nobody holds a reference to it from an earlier `try_get`
  (`FreeList.RunAddLinksIff`), and otherwise the thread's own next `try_get` may miss it
  (`FreeList.GetMissesOwnAdd`).
- `IndexScanner::Retrieve` compares the first cursor's conjunction with itself
  (components/boolean_indexer/index_scanner.cc:105), and two conjunctions whose document id, index and
  size agree in their packed bytes are one to it. As written it answers every query over every index
  rightly exactly for conjunctions of at most one include and ids of their own
  (`BooleanQuery.AsWrittenRightIff`). Counting hits, as the loop does, can itself mistake a conjunction
  only if it has two includes or more, or, where queries name no field twice, more than 255; which
  ones exactly is `BooleanQuery.OvercountedIff`. The mode `Variant`, which takes the k-th cursor's conjunction at
  that line, is not the source; its theorems say so.
- `LinkedList::PopAndRemove` does not count the node it takes off, so after any run of calls the size
  is the length exactly if nothing was popped (`LinkedList.RunSizeIsLengthIff`; an append and a pop
  that leave an empty list of size one are in `LinkedList.PopOutgrows`).
- `AsyncChannel` does not replace an entry under an id that is in use and its timeouts look only at
  the id. A request sent under such an id, which the channel then does not keep alive, is answered
  exactly if its own timer fires, and its weak reference still locks, while the id is in the table
  (`AsyncChannel.RepeatedIdAnsweredIff`), and then another one is not; the exact condition for
  accounting for all requests is `AsyncChannel.RunBalancedIff`.
- `TcpChannel::Send` on an empty buffer loses data exactly if the socket fails before it took all,
  and keeps a proper prefix then (`TcpChannel.StepStreamIff`, `TcpChannel.RunKeepsStream`; a call that
  does so in `TcpChannel.SendCanLose`).
- `CoMutex` stays a mutex if something else resumes a coroutine that waits for it, exactly as long as
  `unlock` has already popped that waiter (`CoMutex.ForeignBreaksMutexIff`, `CoMutex.RunIsFairMutex`; a
  run that breaks it in `CoMutex.ForeignResumerBreaksMutex`).
- A coroutine that runs out of tasks after a resumer of its own period was called hits the check in
  `GC` and aborts (`CoRunner.RunKeepsWakeups`, and a run that does so in `CoRunner.ExitCanAbort`).
- `TimeDelta::FloorToMultiple` takes the magnitude of the least finite interval for infinity
  (`TimeDelta.FloorIsFloorIff`), and `TimeDelta::RoundToMultiple` turns finite deltas near a limit,
  multiples of the interval among them, into infinity (`TimeDelta.RoundIsNearestIff`,
  `TimeDelta.RoundCanOverflow`).

## Model

| member | source | states |
|---|---|---|
| FreeList.RunIsSafe | base/lockfree/freelist.hpp:19-97 | in every interleaving of fewer than 2^31 - 1 threads: a node has one owner, or is on the list, or is in one thread's hands; count and bit are exact; the assertion in `try_get` holds; a successor about to be installed is the true one; at rest the list holds exactly the nodes nobody owns |
| FreeList.RunStepsAreStackSteps | base/lockfree/freelist.hpp:29-97 | every step of every run pushes a node nobody has, pops the first one, or leaves the list alone (no ABA), and `try_get` hands out only unowned nodes |
| FreeList.ThreadBoundIsExact | base/lockfree/freelist.hpp:49-54 | the assertion can fail if and only if there are at least 2^31 - 1 threads |
| FreeList.RunGetUndoesAdd | base/lockfree/freelist.hpp:19-67 | in every run, at rest, an undisturbed `add` puts an owned node in front of the list, and an undisturbed `try_get` after it hands out that node and restores the list |
| FreeList.RunAddLinksIff | base/lockfree/freelist.hpp:19-27 | in every run, with other calls under way: an undisturbed `add` links the node in front if and only if nobody holds a temporary reference to it; otherwise it returns with the list unchanged and the node nobody's |
| FreeList.RunNullMeansEmpty | base/lockfree/freelist.hpp:29-67 | in every run, a `try_get`, from its first load of the head to its return, a re-add on the way included, that hands its caller no node met an empty list at some instant in between |
| FreeList.GetMissesOwnAdd | base/lockfree/freelist.hpp:19-67 | a run of two threads and one node after which a thread adds the node and its own next `try_get` returns null, although nobody owns the node |
| FreeList.RunReturnsAlone | base/lockfree/freelist.hpp:19-97 | from every state of every run, a thread inside `add` or `try_get` that is left alone returns within 19 steps |
| FreeList.StepKeepsInv | base/lockfree/freelist.hpp:19-97 | the invariant over words, list, pending calls and owners is kept by every atomic operation of every thread |
| FreeList.AddKeepsNamedNode | base/lockfree/freelist.hpp:19-97 | every step of `add` and of linking keeps the node's word equal to bit plus list reference plus temporary references, deferral to the last holder included |
| FreeList.DropKeepsNamedNode | base/lockfree/freelist.hpp:58-63 | giving back a temporary reference keeps the word exact, and the last holder of a deferred node takes over the re-add |
| FreeList.InvCountExact | base/lockfree/freelist.hpp:19-97 | the count is the list's reference plus the temporary ones; the bit is set exactly while a re-add is due, and then somebody will notice |
| FreeList.CrowdRun | base/lockfree/freelist.hpp:29-43 | a run in which any number of threads up to the limit hold a reference to one linked node at once |
| TaggedList.RunIsLinearizable | base/lockfree/freelist_dcas.hpp:24-48 | every run shows, state by state, a run of an atomic LIFO stack in which each call takes effect once between call and return, spurious failures of the weak compare-and-swap included |
| TaggedList.RunIsSafe | base/lockfree/freelist_dcas.hpp:24-48 | equal tags mean an unchanged head and successor, and every node is owned, listed or in one thread's hands |
| TaggedList.StepSimulates | base/lockfree/freelist_dcas.hpp:24-48 | each step is one step of the atomic stack or invisible to it |
| TaggedList.GetUndoesAdd | base/lockfree/freelist_dcas.hpp:24-48 | an undisturbed `add` then `try_get` hands out the same node and restores the list, with the tag two further |
| TaggedList.RunReturnsAlone | base/lockfree/freelist_dcas.hpp:24-48 | from every state of every run, a thread inside a call that is left alone, its swaps not failing spuriously, returns within five steps |
| TaggedList.StepKeepsInv | base/lockfree/freelist_dcas.hpp:24-48 | the invariant behind both is kept by every step |
| Wakeup.RunLosesNoWakeup | base/message_loop/message_loop.cc:120-128 | in every interleaving: a queued task has a wakeup under way, the flag is a single token, what has run and what is queued are together the tasks of the posting calls, once each and in order, and at rest all of them have run |
| Wakeup.PostedTasksRun | base/message_loop/message_loop.cc:251-270 | under every scheduler, transitions that are not new calls end after at most `Pending` of them, and then the tasks of all posting calls have run, in order |
| Wakeup.CallsWakeTheLoop | base/message_loop/message_loop.cc:286-299 | after every call that posts a task or only wakes the loop, the loop goes through its queue up to the end before all is at rest again |
| Wakeup.ProgressIsPossible | base/message_loop/message_loop.cc:286-299 | unless everything is at rest, somebody can take a step that is not a new call |
| Wakeup.ProgressShrinksPending | base/message_loop/message_loop.cc:263-270 | each such step lowers the measure |
| CoRunner.RunWakesOncePerPeriod | base/coroutine/co_runner.cc:198-219 | in every run a resumer puts its coroutine on the ready list at most once over all copies and calls, local or remote; each coroutine is on at most one list, attached exactly if on one; the free list stays within its bound |
| CoRunner.RunNeverWakesLate | base/coroutine/co_runner.cc:412-420 | a resumer whose coroutine was resumed since, recycled or freed changes nothing, from then on in every continuation |
| CoRunner.RunWakesExactly | base/coroutine/co_runner.cc:198-211 | in every run a resumer called on this thread, or one called on another when the loop gets to it, puts its coroutine at the end of the ready list if and only if it has not expired and the coroutine is not ready yet, and changes nothing else |
| CoRunner.RunKeepsWakeups | base/coroutine/co_runner.cc:227-259 | a coroutine is ready exactly when a resumer of its present period was called, stays so until it is resumed, and exiting while ready aborts |
| CoRuns.RunServesInOrder | base/coroutine/co_runner.cc:198-219 | in every run the coroutines resumed off the ready list and those on it are the ones whose live resumers were called, in order; calls on other threads are got to in order, none dropped |
| CoRuns.RunReadyIffCalled | base/coroutine/co_runner.cc:198-211 | in every run a living coroutine that is not kept or to be freed is ready if and only if a resumer of its present period was called, here or on another thread |
| CoRuns.RunLosesNoCoroutine | base/coroutine/co_runner.cc:178-259 | in every run each living coroutine is running, on one of the lists, or has yielded and not been woken since, and those that wait are on no list |
| CoRuns.RunSwitches | base/coroutine/co_runner.cc:178-324 | in every run a spawned coroutine is the one longest free or a new one, on no list and out of reach of older resumers; yielding and exiting give way to main; an exiting one is kept while there is room; a new resumer can act |
| CoRuns.RunTunes | base/coroutine/co_runner.cc:295-300 | in every run the peak is the greatest usage so far, and the bound on the free list lies between its minimum and that peak and is raised to it when a second has passed |
| CoRunner.ExitCanAbort | base/coroutine/co_runner.cc:227-228 | a run in which a coroutine calls its own resumer, runs out of tasks and aborts |
| CoRunner.StepKeepsInv | base/coroutine/co_runner.cc:183-324 | lists, resume ids and issued resumers stay consistent under every operation |
| CoRunner.ExitKeepsInv | base/coroutine/co_runner.cc:178-235 | a finished coroutine is recycled within the bound or queued for freeing, on one list only |
| CoRunner.SpawnKeepsInv | base/coroutine/co_runner.cc:314-324 | reuse from the free list, or a new coroutine, keeps the invariant |
| CoroLists.Lists.AttatchedIsAttached | base/queue/linked_list.h:51 | over the three lists of a runner, the two pointers of a coroutine are set if and only if it is on one of them |
| CoroLists.Lists.Append | base/queue/linked_list.h:101-104 | appending a detached node to one list keeps the three rings apart and the pointer test exact |
| CoroLists.Lists.Remove | base/queue/linked_list.h:106-109 | removing a node from its list keeps the rings apart, detaches it, and keeps the test exact |
| CoroLists.Lists.Resume | base/coroutine/co_runner.cc:199-211 | the resumer's body on the pointers is that of the runner model |
| CoroLists.Lists.Collect | base/coroutine/co_runner.cc:227-235 | `GC` on the pointers and the size field recycles, queues or aborts as the runner model does |
| CoroLists.Lists.NextReady | base/coroutine/co_runner.cc:255-257 | a turn of the ready loop takes the first ready coroutine |
| CoroLists.Lists.Spawn | base/coroutine/co_runner.cc:314-324 | reuses the first free coroutine, or creates one that is on no list |
| CoroLists.Lists.FreeOne | base/coroutine/co_runner.cc:238-244 | a turn of `FreeCoros` takes the first collected coroutine |
| RunContext.Runner.Run | base/coroutine/co_runner.cc:250-293 | every task on the own queue when its loop starts and every non-null task on the list at the swap starts exactly once and in order, whichever suspend; then tasks drawn from the shared queue, in order, until all that were on it when the run began have been drawn by this runner or another; resumed coroutines start nothing; what comes too late is kept in order, and the shared queue loses or doubles nothing |
| RunContext.Runner.RunShared | base/coroutine/co_runner.cc:280-286 | whatever other runners take meanwhile, what the loop starts it drew from the shared queue in order, no more than were there at its start, and all that were there have been drawn by somebody |
| RunContext.Runner.RunQueue | base/coroutine/co_runner.cc:262-268 | starts exactly the tasks on the own queue at its start, in order |
| RunContext.Runner.RunList | base/coroutine/co_runner.cc:271-277 | starts exactly the non-null tasks on the list at the swap, in order |
| RunContext.Runner.ResumeReady | base/coroutine/co_runner.cc:255-259 | resumed tasks leave their effects, and their coroutines, finding the context used up, start nothing |
| RunContext.Runner.Dispatch | base/coroutine/co_runner.cc:264-286 | each dispatch loop ends, with `Remain` as measure, when the context is used up, also over a queue that others dequeue from |
| RunContext.Runner.CoroMain | base/coroutine/co_runner.cc:168-176 | one coroutine starts tasks in order until the context is used up or one suspends, and no task before the last suspends |
| RunContext.OneRunContext.PopTask | base/coroutine/co_runner.cc:52-66 | the next pending task, nulls skipped, list before queue; `Remain` shrinks |
| RunContext.OneRunContext.SwapFromTaskList | base/coroutine/co_runner.cc:75-78 | the whole list becomes pending and is left empty |
| RunContext.OneRunContext.WithQueueTillNow | base/coroutine/co_runner.cc:80-84 | exactly what is queued now becomes pending |
| RunContext.OneRunContext.Reset | base/coroutine/co_runner.cc:43-50 | nothing is pending and, on a used-up context, nothing was dropped |
| LinkedList.List.Append | base/queue/linked_list.h:56-104 | the pointer surgery puts the element at the end of the ring and keeps it well formed |
| LinkedList.List.Remove | base/queue/linked_list.h:72-109 | takes out exactly that element, detaches it, and keeps the ring |
| LinkedList.List.PopAndRemove | base/queue/linked_list.h:113-119 | takes the first element and leaves the size as it was |
| LinkedList.List.First | base/queue/linked_list.h:111-125 | the first element, or null exactly for the empty list |
| LinkedList.List.MembersAreAttatched | base/queue/linked_list.h:51 | whatever is in the ring is attached; the converse is `CoroLists.Lists.AttatchedIsAttached` |
| LinkedList.RunSizeIsLengthIff | base/queue/linked_list.h:101-129 | after every run of calls the size is the length if and only if none of them popped a node |
| LinkedList.PopOutgrows | base/queue/linked_list.h:113-119 | an append and a pop leave a list of length zero and size one |
| CoMutex.RunIsFairMutex | base/coroutine/co_mutex.cc:11-44 | in every run whose foreign resumptions meet only waiters already popped by `unlock`: one holder, waiters only while locked, entry in queueing order, nobody forgotten even if resumed before yielding, nobody waiting when unlocked, and without foreign resumptions nobody inside `unlock` then either |
| MutexRuns.RunIsFirstComeFirstServed | base/coroutine/co_mutex.cc:11-39 | in every such run the waiters that got in are a prefix of the calls of `lock` that found the mutex locked, in order |
| MutexRuns.RunAnswersCalls | base/coroutine/co_mutex.cc:11-44 | after every such run: `lock` and `try_lock` take a free mutex, `try_lock` leaves a locked one as it was, `lock` on it makes the caller wait last in line, `unlock` frees it or takes the first out of the line; a locked mutex is held or on its way to somebody who waits |
| CoMutex.RunHandsOff | base/coroutine/co_mutex.cc:26-39 | after every such run and under every scheduler, whoever else tries to lock meanwhile: the steps after an unlock with somebody waiting end within a stated bound, and then the waiter that queued first, and nobody else, has got in |
| CoMutex.ForeignBreaksMutexIff | base/coroutine/co_mutex.cc:20-39 | after every such run, a foreign resumption of a waiter lets some continuation of the mutex alone have two holders if and only if that waiter's resumer is still in the queue |
| CoMutex.ForeignResumerBreaksMutex | base/coroutine/co_mutex.cc:20-23 | a run with one foreign resumption in which two coroutines hold the mutex |
| CoMutex.StepKeepsInv | base/coroutine/co_mutex.cc:26-39 | the lock is one baton that is held, passed, in the mail or arrived, every step moves it so, and all other popped tickets are stale |
| ClientChannel.Channel.HandleResponse | net_io/clients/client_channel.cc:110-127 | each call records one answer, for the heartbeat, the client or nobody, and says whether somebody took it |
| ClientChannel.HandledAllAnswers | net_io/clients/queued_channel.cc:87-92 | answering a batch adds one answer for each request in order, and drops none while there is a client |
| QueuedChannel.RunAnswersInOrder | net_io/clients/queued_channel.cc:42-154 | in every run answered, in-flight and waiting requests are together the submitted ones in order; nothing waits while nothing is in flight; a heartbeat that is out is pending |
| QueuedChannel.ClosingAnswersEverything | net_io/clients/queued_channel.cc:80-154 | after a close or the timeout of the request in flight everything submitted is answered, and up to the first `CloseClientChannel` no answer is dropped |
| QueuedChannel.RunPairsResponses | net_io/clients/queued_channel.cc:117-130 | until the connection closes or times out, the j-th response answers the j-th request on the wire, and at most one is open |
| QueuedRuns.RunHandsOutResponses | net_io/clients/queued_channel.cc:117-130 | in every run the responses in the log, in order, are the messages that met a request in flight, each to that request; a timeout says so to the request in flight, every other answer says broken, and answers go to the client exactly while there is one |
| QueuedRuns.RunTellsBeats | net_io/clients/client_channel.cc:101-127 | in every run in which no request is handed in twice, exactly the answers to heartbeats go to the heartbeat |
| QueuedRuns.RunSendsWhatIsAccepted | net_io/clients/queued_channel.cc:51-78 | in every run the requests on the wire are as many as the codec accepted attempts |
| QueuedChannel.PendingHasATimer | net_io/clients/queued_channel.cc:69-76 | whenever something is pending, a posted timer would answer all of it |
| QueuedChannel.StepKeepsInv | net_io/clients/queued_channel.cc:42-154 | the law of order is kept by every event |
| QueuedChannel.AttachedUntilClosed | net_io/clients/client_channel.cc:57-83 | the client is attached exactly until `CloseClientChannel` |
| QueuedChannel.Queue.SendRequest | net_io/clients/queued_channel.cc:42-49 | does to the object what the event does to its value |
| QueuedChannel.Queue.TrySendNext | net_io/clients/queued_channel.cc:51-78 | the waiting requests the codec refuses are answered in order, the first it takes is in flight with a timer |
| QueuedChannel.Queue.Drain | net_io/clients/queued_channel.cc:80-93 | everything pending is answered as broken, the request in flight first |
| QueuedChannel.Queue.OnRequestTimeout | net_io/clients/queued_channel.cc:95-115 | acts only for the request in flight, and then answers it and everything behind it |
| QueuedChannel.Queue.OnCodecMessage | net_io/clients/queued_channel.cc:117-130 | answers the request in flight and sends on |
| QueuedChannel.Queue.OnCodecClosed | net_io/clients/queued_channel.cc:132-154 | everything pending is answered as broken |
| QueuedChannel.Queue.CloseClientChannel | net_io/clients/client_channel.cc:57-83 | everything pending is answered while the client is still attached |
| QueuedChannel.Queue.OnHeartbeatTimer | net_io/clients/client_channel.cc:101-108 | a heartbeat is sent only when none is out |
| AsyncChannel.RunAnswersOnce | net_io/clients/async_channel.cc:40-126 | in every run without a repeated id each submitted request is in progress or has exactly one answer, and no answer is dropped before a close |
| AsyncChannel.RunBalancedIff | net_io/clients/async_channel.cc:40-81 | in every run at all, requests are accounted for up to an event if and only if no event so far met another request under its id |
| AsyncChannel.StepBalancedIff | net_io/clients/async_channel.cc:40-126 | the same for one event |
| AsyncChannel.RepeatedIdAnsweredIff | net_io/clients/async_channel.cc:60-81 | in every run, a request sent once while its id is taken is answered if and only if its timer fires and finds it alive while its id is in the table |
| AsyncChannel.RepeatedIdIsLost | net_io/clients/async_channel.cc:60-61 | a run in which a close answers the first of two requests under one id and not the second |
| AsyncChannel.RepeatedIdTakesOver | net_io/clients/async_channel.cc:73-80 | a run in which the timeout of the second, kept alive by its sender, takes the entry of the first, which stays unanswered |
| AsyncChannel.ClosingAnswersEverything | net_io/clients/async_channel.cc:83-126 | after a close nothing is in progress and, without repeated ids, every request is answered |
| AsyncRuns.RunHandsOutResponses | net_io/clients/async_channel.cc:40-126 | in every run each event gives exactly the answers it is about: the message to the request under its id, a timeout to the timer's request, broken to a refused request and to all at a close; the responses in the log are the messages that met a request, in order |
| AsyncRuns.RunTellsBeats | net_io/clients/client_channel.cc:101-127 | in every run without a repeated id, exactly the answers to heartbeats go to the heartbeat |
| AsyncRuns.AttachedUntilClosed | net_io/clients/client_channel.cc:57-83 | in every run the client is attached exactly until `CloseClientChannel` |
| AsyncChannel.Table.SendRequest | net_io/clients/async_channel.cc:40-62 | does to the object what the event does to its value |
| AsyncChannel.Table.OnRequestTimeout | net_io/clients/async_channel.cc:64-81 | does nothing if the request is gone, and otherwise takes the entry under its id and answers the request |
| AsyncChannel.Table.BeforeCloseChannel | net_io/clients/async_channel.cc:83-91 | whatever order the table is walked in, each entry is answered once and the table is left empty |
| AsyncChannel.Table.OnCodecMessage | net_io/clients/async_channel.cc:93-108 | takes the entry under the response's id and answers it |
| AsyncChannel.Table.OnCodecClosed | net_io/clients/async_channel.cc:110-126 | answers and empties the table |
| AsyncChannel.Table.CloseClientChannel | net_io/clients/client_channel.cc:57-83 | answers the table before the client is detached |
| IoBuffer.Buffer.EnsureWritableSize | net_io/io_buffer.cc:59-80 | contents unchanged and room for the request, whether nothing, a move or a growth is needed |
| IoBuffer.Buffer.MoveToFront | net_io/io_buffer.cc:65-72 | the overlapping forward copy keeps the unread bytes |
| IoBuffer.Buffer.WriteRawData | net_io/io_buffer.cc:112-116 | appends exactly the bytes |
| IoBuffer.Buffer.Consume | net_io/io_buffer.cc:126-131 | takes off at most what is there, and rewinds an empty buffer |
| TcpChannel.RunKeepsStream | net_io/tcp_channel.cc:83-146 | in every run, wire ++ buffer is the payloads in order if and only if no call lost data, and shorter otherwise; buffered bytes always have write interest |
| TcpChannel.StepStreamIff | net_io/tcp_channel.cc:115-146 | a call appends its payload to the stream unless it sends on an empty buffer and the socket fails before taking all; then the stream keeps a proper prefix; the code is -1 if and only if the socket fails first, buffered bytes or not, and the number of bytes written otherwise |
| TcpChannel.StepInterest | net_io/tcp_channel.cc:83-146 | a failing call leaves the write interest as it was, and any other leaves it on exactly for bytes left to send, or as it was on an empty buffer |
| TcpChannel.SendCanLose | net_io/tcp_channel.cc:121-145 | three bytes sent on an empty buffer to a socket that takes one and then fails: the call loses data, and the stream is the first byte |
| TcpChannel.FlushFailsIff | net_io/tcp_channel.cc:92-109 | a write loop for n bytes fails if and only if the socket has an error after nothing but interrupts and short writes of fewer than n bytes |
| TcpChannel.FlushedRunSendsAll | net_io/tcp_channel.cc:83-146 | with the buffer empty after a run the peer was sent exactly the payloads if and only if no call lost data |
| TcpChannel.FlushKeepsStream | net_io/tcp_channel.cc:92-109 | the write loop moves bytes to the wire in order, loses none, and is done exactly when all are out |
| TcpChannel.FlushEmpties | net_io/tcp_channel.cc:92-99 | a socket that keeps taking bytes gets them all |
| TcpChannel.Channel.HandleWrite | net_io/tcp_channel.cc:83-113 | the loop over the buffer is the specified flush, and sets the write interest by what is left |
| TcpChannel.Channel.SendDirectly | net_io/tcp_channel.cc:121-145 | the loop over the caller's data is the specified direct send; what would block is buffered |
| TcpChannel.Channel.Send | net_io/tcp_channel.cc:115-146 | behind buffered bytes the data is queued, otherwise it is sent directly |
| TcpChannel.Channel.HandleRead | net_io/tcp_channel.cc:52-81 | buffered ++ unread is conserved, and the loop takes the socket's outcomes up to the first that stops it |
| EntryIds.ConjIDRoundTrip | components/boolean_indexer/id_generator.cc:10-29 | the document comes back if and only if its magnitude has at most 43 bits; index and size if and only if they hold the bits that spill into them, always so up to 44 bits |
| EntryIds.ConjIDFields | components/boolean_indexer/id_generator.cc:10-29 | for any document, index and size are or-ed with its bits from 44 and from 52 on |
| EntryIds.ConjIDOrder | components/boolean_indexer/id_generator.cc:10-15 | ids order by size, index, then sign and magnitude of the document, and are injective |
| EntryIds.EntryIDOrder | components/boolean_indexer/id_generator.cc:32-47 | entries order by conjunction, exclude before include, decode to what they encode, and are never null |
| EntryIds.OrDisjoint | components/boolean_indexer/id_generator.cc:12-14 | bitwise or of fields that do not overlap is their sum |
| Cursors.SkipCursor | components/boolean_indexer/scanner_cursor.cc:11-51 | the hybrid search lands where the linear scan does, on every sorted list with duplicates |
| Cursors.SkipLinearly | components/boolean_indexer/scanner_cursor.h:23-35 | the linear scan lands on the first entry that is not to be skipped |
| Cursors.FieldCursor.constructor | components/boolean_indexer/scanner_cursor.cc:60-70 | the current id is the minimum over the cursors |
| Cursors.FieldCursor.Skip | components/boolean_indexer/scanner_cursor.cc:76-98 | what remains is what is not skipped, and the current id is still the minimum, null exactly when all ended |
| Cursors.FieldCursor.CurrentIsMin | components/boolean_indexer/scanner_cursor.h:63-73 | the current id is the least remaining entry |
| ScanSpec.ScanExact | components/boolean_indexer/index_scanner.cc:74-124 | as written with at most one include per conjunction, or the variant always: a scan reports exactly the satisfied conjunctions |
| ScanSpec.AsWrittenExactIff | components/boolean_indexer/index_scanner.cc:104-107 | as written, exact on all queries if and only if conjunctions have at most one include |
| ScanSpec.TwoIncludesMisreported | components/boolean_indexer/index_scanner.cc:105-110 | any two conjunctions of two includes, each hit in one field, make the code report one that does not hold |
| ScanSpec.ScanSound | components/boolean_indexer/index_scanner.cc:107-110 | whatever the guard, only conjunctions that some field includes are reported |
| ScanSpec.StepExact | components/boolean_indexer/index_scanner.cc:92-123 | one round reports or loses no satisfied conjunction wrongly |
| ScanSpec.AdvanceShrinks | components/boolean_indexer/index_scanner.cc:121-124 | every round leaves fewer entries, so the scan ends on every index and query |
| IndexScanner.Retrieve | components/boolean_indexer/index_scanner.cc:65-127 | the loop over sorted cursors ends and returns the documents of a scan |
| IndexScanner.Sort | components/boolean_indexer/index_scanner.cc:76-80 | some permutation of the cursors, sorted by current id |
| IndexScanner.Move | components/boolean_indexer/index_scanner.cc:112-123 | exactly the first k cursors, and on an exclude the others on that conjunction, skip as specified |
| BooleanQuery.MatchIsHolds | components/boolean_indexer/builder/be_indexer_builder.cc:33-61 | over the entries the builder posts, for conjunctions with ids of their own and every query: what holds is satisfied in the scan's sense, and the two agree if and only if hits are not overcounted |
| BooleanQuery.OvercountedIff | components/boolean_indexer/index_scanner.cc:92-110 | some query makes the scan overcount a conjunction if and only if it has two includes or more, one of which can be hit; some query that names a field once, if and only if it has 256 or more and enough of them can be hit for the remainder of their number |
| BooleanQuery.AnswerIsRight | components/boolean_indexer/index_scanner.cc:65-127 | the documents of a scan are exactly the documents that hold, wherever that is promised |
| BooleanQuery.AsWrittenRightIff | components/boolean_indexer/index_scanner.cc:65-127 | as written, answers to all queries over all indexes with at most n includes, and ids of their own where asked for, are right if and only if n is at most one and that is asked for |
| BooleanQuery.TwoPairsMisanswered | components/boolean_indexer/index_scanner.cc:104-110 | two documents of two includes and a query through which the code as written reports one that does not hold |
| BooleanQuery.TwinsMisanswered | components/boolean_indexer/id_generator.cc:10-15 | two documents with one id, of which the exclude of the first hides the second, which holds |
| BooleanQuery.ConjIdSameIff | components/boolean_indexer/document.cc:81-88 | two conjunctions share an id if and only if document id, and index and size by their low byte, agree |
| BooleanIndexer.Indexer.Retrieve | components/boolean_indexer/index_scanner.cc:65-127 | end to end: an id is in the answer if and only if an added document with it has a conjunction all of whose includes and none of whose excludes the query hits; as written, for conjunctions of at most one include with ids of their own |
| BooleanIndexer.Indexer.AddDocument | components/boolean_indexer/builder/be_indexer_builder.cc:33-61 | the postings are those of the documents added so far |
| BooleanIndexer.Indexer.IndexingToken | components/boolean_indexer/common_container.cc:10-22 | adds the entry under every value and nothing else |
| BooleanIndexer.Indexer.CompleteIndex | components/boolean_indexer/be_indexer.cc:27-39 | sorts every list and keeps its entries |
| BooleanIndexer.Indexer.RetrieveEntries | components/boolean_indexer/common_container.cc:24-36 | the lists hold exactly the entries posted for the assignment |
| BooleanIndexer.Indexer.InitCursors | components/boolean_indexer/index_scanner.cc:27-63 | one cursor per field with entries, and the wildcard cursor |
| CheckedMath.CheckedAddIsExact | base/numerics/checked_math_impl.h:23-41 | at any width, signed or not: the exact sum if and only if the type has it |
| CheckedMath.CheckedSubIsExact | base/numerics/checked_math_impl.h:87-105 | the same for differences |
| CheckedMath.CheckedMulIsExact | base/numerics/checked_math_impl.h:151-171 | the same for products, the fast outs and min times -1 included |
| CheckedMath.ClampedAddIsClamp | base/numerics/clamped_math_impl.h:71-95 | the sum clamped to the type's range |
| CheckedMath.ClampedSubIsClamp | base/numerics/clamped_math_impl.h:97-122 | the difference clamped |
| CheckedMath.ClampedMulIsClamp | base/numerics/clamped_math_impl.h:124-146 | the product clamped |
| CheckedMath.SaturatedAbsIsClamp | base/numerics/clamped_math_impl.h:49-62 | the magnitude clamped |
| TimeDelta.FloorIsFloorIff | base/time/time_delta.cc:85-94 | the greatest multiple not above the delta, or Min if that is not a delta, if and only if not the least finite interval with a delta to be rounded down |
| TimeDelta.WidestFloor | base/time/time_delta.cc:89-92 | under that interval a negative delta becomes Min although the multiple is finite |
| TimeDelta.CeilIsCeil | base/time/time_delta.cc:75-83 | the least multiple not below the delta, or Max if that is not a delta |
| TimeDelta.RoundIsNearest | base/time/time_delta.cc:96-104 | the nearest multiple, ties away from zero, unless adding half the interval reaches a limit, which is then the result |
| TimeDelta.RoundIsNearestIff | base/time/time_delta.cc:96-104 | the result is the nearest multiple clamped to Min and Max if and only if not both half the interval reaches a limit and that multiple is finite |
| TimeDelta.RoundCanOverflow | base/time/time_delta.cc:96-104 | the greatest even finite delta, rounded to a multiple of two, becomes Max |
| TimeDelta.NearestBeatsAll | base/time/time_delta.h:240-244 | no multiple is nearer than that, and an equally near one is closer to zero |
| TimeDelta.RoundingAtTheLimits | base/time/time_delta.cc:75-104 | infinite deltas and interval zero change nothing; under an infinite interval the ceiling and the floor are the nearest of zero and the limits on their side, and rounding gives zero |
| TimeDelta.SumsAreClamped | base/time/time_delta.h:265-281 | the sums and differences used here are those of the clamped operations |
| LruCache.CachedIsRecent | components/lru_cache/lru_cache.h:24-66 | after every run of calls the cache is the list of all keys by recency, cut to the capacity |
| LruCache.RecentIsByLastTouch | components/lru_cache/lru_cache.h:24-66 | that list is ordered by last touch and holds every added key with its last value |
| LruCache.Cache.Add | components/lru_cache/lru_cache.h:24-52 | list and table stay in bijection and change as specified, the same for both eviction branches |
| LruCache.Cache.Get | components/lru_cache/lru_cache.h:54-66 | finds exactly the cached keys, returns the value and moves the entry to the front |

## Left out

- Weak memory orders: the atomics of the free lists and of the notify flag are sequentially consistent here.
- Wrap-around of the tag of the double-word free list: the tag is unbounded.
- Failing eventfd writes: they are assumed to succeed, and the counter is shown never to exceed one.
- The concurrent task queue: a linearizable FIFO. What other threads do to the queue all runners share is any sequence of dequeues and enqueues between two attempts of the runner to pop a task.
- Termination of the ready-list loops of `CoroRunnerImpl::Run`: coroutines may resume each other forever, so `RunContext.Runner.Run` takes the number of resumptions as given.
- Stack switching, shared-pointer counts, the spin lock of the mutex: context switches and locked regions are atomic transitions.
- Re-entrance of channels: answers reach client code that posts new requests to the loop, so no handler is entered while another runs; requests are compared by identity.
- The reference that `TrySendNext` keeps across `pop_front` (net_io/clients/queued_channel.cc:58-65): the popped value is meant.
- Sockets and codecs: a socket is the script of its outcomes, a codec the sequence of its acceptances; neither is shown to make progress.
- Value parsers of the boolean index: values are already the parser's 64-bit tokens; unparsable expressions and queries, and queries on a field without meta data, are not modelled.
- BooleanQuery.MatchIsHolds: for conjunctions with ids of their own; `BooleanQuery.TwinsMisanswered` shows why.
- BooleanIndexer.Indexer.Retrieve: promises an answer for `Promised` indexes and queries only, which is all there is to promise for the code as written (`BooleanQuery.AsWrittenRightIff`).
- IndexScanner.Sort: an insertion sort (`Sorting.Sort`) stands for the library's sort; the proof uses only that the result is sorted and a permutation.
- CheckedMath.CheckedAddIsExact: the portable path for two operands of one type; the promotions for mixed types, compiler intrinsics, floating point, division, shifts and negation are not modelled.
- TimeDelta.RoundIsNearest: integer deltas and intervals; conversions to and from floating point are not modelled.
- LruCache.CachedIsRecent: for a capacity of at least one; with capacity zero the source steps before the start of an empty list.
- IoBuffer.Buffer.EnsureWritableSize: lengths are unbounded integers; line search and typed appends are left out.
- The timer wheel, `WaitGroup`, `IOEvent`, clients and connectors, codecs, MySQL, the inverted index, hashing and geometry helpers: foreign results, or only easy members.
