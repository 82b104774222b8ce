# RDMA key-value store and bandwidth test

A Dafny model of two programs that talk over RDMA queue pairs, and proofs about every run of them.

**The key-value store** (`LowLatencyProtocols/`). Clients call `kv_set` and `kv_get` against one server that visits them
in turn. Short values travel inside a control message (eager). Long ones use a grant from the server, a one-sided RDMA
write or read by the client, and a FIN with an acknowledgement (rendezvous). A database entry with a registration
(`mr_rdma`) is locked; competing requests get `SERVER_IN_PROGRESS`. The server posts a grant *before* it records the lock,
so a client can transfer, and even send its FIN, inside that window.

**The bandwidth test** (`Optimization/bw_template.c`). A client and a server keep in step only by *counting* completions on
one queue that both kinds of completion share.

| file | what it holds |
|---|---|
| `Messages` | C strings, control messages and their sizes |
| `History` | client calls, the sequential key-value specification, linearizability |
| `ServerStore` | the server's memory and what each handler does to it |
| `Protocol` | N clients, links with one receive buffer each, one-sided transfers byte by byte, and the server, as a labelled transition system; handlers that grant are two steps |
| `ProtocolInvariant`, `ProtocolSteps`, `ProtocolRuns` | the invariant, its preservation by every kind of change, and by every step and run |
| `ProtocolTheorems` | what every reachable state satisfies |
| `ProtocolContention` | which calls are turned away as busy, and what calls without competition get |
| `Allocation` | a new block fits among blocks at arbitrary places |
| `ProtocolProgress` | termination measure, absence of deadlock, round robin, the window after a grant |
| `ProtocolGuard` | exactly which calls make a system safe |
| `KeyValueArray` | the growable array, in place, as a finite map; the cost of doubling |
| `KvServer`, `KvClient` | the server's handlers and loop and the client's calls as imperative code |
| `ServerRefinement`, `ClientRefinement` | in every run and under every interleaving these programs do what the steps of the transition system do |
| `Codec` | the control-message encoder and decoder on a reused buffer |
| `Polling` | exact polling of completion queues and receive credits |
| `Benchmark` | the posts and waits of both sides of the bandwidth test and their accounts |
| `BenchmarkRuns`, `BenchmarkTheorems`, `BenchmarkQueue` | both sides at once, for every completion order; how full the send queue gets |
| `BenchmarkProgram` | the test functions as imperative code |
| `WireAddress` | printing and parsing queue-pair addresses |

A run is any finite sequence of steps, each enabled where it is taken; a reachable state is the end of a run from
connected queue pairs with full receive queues and an empty database. The number of clients, their scripts, the queue
depths, the iteration counts and every choice of the scheduler, the allocator and the adapter are arbitrary.

Assumed of the environment: reliable delivery in order on each queue pair (section 9.5, transaction ordering, of the
InfiniBand Architecture Specification Volume 1), posts and registrations that succeed, clients that do not crash, and, for
the theorems that promise an end, a 64-bit address space with room for one block of the longest value for each set of the
scripts, and fewer than 2^32 clients (`ProtocolProgress.EnoughRoom`): the allocator may place blocks anywhere they do not
overlap, and a gap is then proved to remain.

In the bandwidth test the assumption that posts succeed asks for more than the program asks of the adapter, which it tells
to keep `tx_depth` sends (Optimization/bw_template.c:705) and `rx_depth + tx_depth` completions
(Optimization/bw_template.c:692). The client needs a send queue one longer exactly under the condition of
`BenchmarkQueue.ExceedsExactly`, and a longer completion queue exactly under that of `BenchmarkQueue.OverflowsExactly`.

## What turned out false, and exactly when it holds

- *Every call fits its message.* The guard of `kv_set` (LowLatencyProtocols/kv_api.c:264) counts the two strings and their
  terminators but not the 8-byte size field packed between them. `Codec.EagerGuardGapWitness` is a call that overruns the
  buffer; `Codec.EagerGuardGap` shows that an eager set does for exactly the eight total lengths 4087 to 4094. Nothing
  guards the other requests: a rendezvous set overruns for every key of 4088 bytes or more, a get for every key of 4096 or
  more. And the adapter is told only the low 32 bits of a transfer's length (LowLatencyProtocols/ib_functions.c:796), so a
  value of 2^32 - 1 characters or more is not transferred whole; the model counts a call with such a value as faulty from
  its start. `ProtocolGuard.FittingLengths` gives all lengths that fit, and `ProtocolGuard.SafeExactlyWhenAllFit` shows that a
  system runs without faults in all its runs if and only if all its calls fit. The theorems about reachable states start
  from systems whose calls all fit.
- *A get that fails says that the key is not there.* `kv_get` returns the code 1 and a null pointer for a busy key as well
  (LowLatencyProtocols/kv_api.c:500-510, `ClientRefinement.CodesOfGet`), so a caller cannot tell the two apart as the
  histories here do. It may conclude that no set of the key had stored only if no other client's call on the key overlapped
  the get (`ClientRefinement.FailedGetFoundNothing`).
- *The automatic refill does not work with a receive queue of depth 1*, as the comment at
  LowLatencyProtocols/ib_functions.c:865 says. The code does refill it: `Credits.CreditBounds` shows that a queue no
  deeper than the threshold plus one is filled up by every poll, and that the count stays above the threshold exactly when
  the queue is deeper than it.
- *The send queue never exceeds `tx_depth`.* In the bandwidth test it does, by one, in some run if and only if there is a
  trial and the iteration count is a positive multiple of `tx_depth` (`BenchmarkQueue.ExceedsExactly`), and then only right
  behind the control message that ends a trial (`BenchmarkQueue.SendQueueBound`).
- *Doubling a full array makes room for the next key.* Not for an array of initial capacity 0;
  `KeyValueArray.RoomExactly` shows that there is always room if and only if the initial capacity is at least 1. The
  server's is 20.
- *The bandwidth test's count of posted receives.* It is right after every wait that succeeds. After one that fails it is too
  high by exactly the receive completions in the part of the batch that is dropped, which the code neither counts nor puts
  back (Optimization/bw_template.c:968-976, `Polling.BenchmarkContext.WaitCompletions`).
- *A set checks the reply to its rendezvous request.* It takes anything but a busy reply for a grant
  (LowLatencyProtocols/kv_api.c:318-342); the contract of `KvClient.Connection.KvSet` says what it then does, and
  `ClientRefinement.PerformSet` that in no run of the protocol it comes to that.

## Model

| member | source | states |
|---|---|---|
| ProtocolTheorems.ReachableLinearizable | LowLatencyProtocols/kv_api.c:258-826 | in every reachable state the calls as the clients see them are linearizable against one sequential map, busy answers changing nothing, witnessed by the order in which handlers took effect |
| ProtocolTheorems.ReturnedGetIsLatest | LowLatencyProtocols/kv_api.c:407-513 | a get that returned a value returned the whole value of the latest successful set of its key; one that found nothing came before any |
| ProtocolContention.BusyMeansRival | LowLatencyProtocols/kv_api.c:629-640 | every call that took effect as busy overlapped in time a call of another client on the same key |
| ProtocolContention.UnrivalledIsServed | LowLatencyProtocols/kv_api.c:258-513 | a returned call that no call of another client on its key overlapped stored its value, or found a value or nothing |
| ProtocolContention.SetThenGet | LowLatencyProtocols/kv_api.c:258-513 | with no other set of the key taking effect between a set and a get, the get finds the value whichever paths the two take, or was turned away because of a rival |
| ProtocolContention.UncontendedSetThenGet | LowLatencyProtocols/kv_api.c:258-513 | in real time: a get invoked after a set has returned finds exactly its value if no other set of the key was open from the one to the other and no other client's call on the key overlapped the get |
| ProtocolTheorems.GetPathByLength | LowLatencyProtocols/kv_api.c:782-824 | an unlocked key is answered with the latest value, eagerly below the buffer size and by a grant of exactly its length from there on, so a value that can be set eagerly is never fetched by rendezvous |
| ProtocolTheorems.BusyIsHonest | LowLatencyProtocols/kv_api.c:629-640 | a busy reply leaves the server unchanged and is given only while a different client is mid-rendezvous on the key |
| ProtocolTheorems.LockOwnership | LowLatencyProtocols/kv_api.c:629-680 | a key is locked, or in the window between a posted grant and its recording, if and only if some client is mid-rendezvous on it, and then exactly one is |
| ProtocolTheorems.PendingIsLock | LowLatencyProtocols/kv_api.c:670-679 | what the server is about to record after a grant is a lock, on a key not locked yet |
| ProtocolTheorems.TransfersDisjoint | LowLatencyProtocols/kv_api.c:347-353 | the memory two clients transfer to or from at the same time never overlaps, and their keys differ |
| ProtocolTheorems.OneSidedAccessValid | LowLatencyProtocols/kv_api.c:342-353 | every byte written or read one-sidedly lies in a live registration of the client's own connection, with the right access and exactly the length of the transfer, which the adapter's 32 bits hold whole |
| ProtocolTheorems.RegistrationsAreLocks | LowLatencyProtocols/kv_api.c:648-679 | live registrations and locked entries match one to one, counting a grant in its window, with equal address and size |
| ProtocolTheorems.LockedEntryStable | LowLatencyProtocols/dynamic_array.h:75-109 | a locked entry is changed or overwritten only by handling the FIN of the one client that holds it |
| ProtocolTheorems.FinIsTrustworthy | LowLatencyProtocols/kv_api.c:551-607 | when a FIN is handled its key exists and is locked by a grant of the matching kind to the sender |
| ProtocolTheorems.NoFaults | LowLatencyProtocols/kv_api.c:551-557 | no handler dereferences a missing entry or overruns a block, no client gets an unexpected reply or makes an invalid access |
| ProtocolTheorems.ReceiveBufferSafe | LowLatencyProtocols/ib_functions.c:710-735 | at most one message per connection is outstanding, none lands while the last one is unread or being handled, and each finds a receive that the adapter really has; the count each side keeps equals those plus the ones used up and not polled, and stays in (10, rx_depth] for queues deeper than 10 |
| ProtocolTheorems.MessagesFit | LowLatencyProtocols/kv_api.h:118-190 | every outstanding message fits the control message |
| ProtocolTheorems.CleanShutdown | LowLatencyProtocols/kv_api.c:835-864 | the server has returned if and only if every client has finished its script and its shutdown message has been taken; then nothing is in flight, no key locked, no region registered, and every call has returned |
| ProtocolRuns.StepKeepsInv | LowLatencyProtocols/kv_api.c:258-904 | every step of every party keeps the invariant that links phases, messages, locks, registrations, memory and history |
| ProtocolSteps.GrantSetStep | LowLatencyProtocols/kv_api.c:648-679 | granting a write keeps the invariant before the lock is recorded in the database |
| ProtocolSteps.SetFinStep | LowLatencyProtocols/kv_api.c:558-581 | releasing a written entry makes its new value the current one and keeps the invariant |
| ProtocolProgress.StepUsesWork | LowLatencyProtocols/kv_api.c:836-903 | every step but an empty poll lowers the measure of the work left, and an empty poll leaves it |
| ProtocolProgress.RunsAreBounded | LowLatencyProtocols/kv_api.c:836-903 | in every run the steps that are not empty polls, and the work left at its end, add up to no more than the work at the start |
| ProtocolProgress.Progress | LowLatencyProtocols/kv_api.c:258-513 | until the server returns some step other than a poll is possible, or the server polls while a message is there |
| ProtocolProgress.NoDeadlock | LowLatencyProtocols/kv_api.c:831-904 | every run can be continued until the server returns |
| ProtocolProgress.RoundRobin | LowLatencyProtocols/kv_api.c:838-851 | while a client waits to be looked at, each poll brings its turn one nearer and at most N-1 messages of others are taken up before it |
| ProtocolProgress.WindowOpens | LowLatencyProtocols/kv_api.c:816-823 | every handler that posts a grant leaves the database as it was and the client able to act on the grant, with the lock still to be recorded |
| ProtocolProgress.WindowIsReal | LowLatencyProtocols/kv_api.c:670-679 | from there the client can finish its write or read and have its FIN in the server's receive buffer before the lock is recorded, so the invariants must and do cover the window |
| ProtocolGuard.SafeExactlyWhenAllFit | LowLatencyProtocols/kv_api.c:264-303 | a system runs without faults in all its runs if and only if every call of every script fits; where some do not, memory must suffice for the calls before one of them |
| ProtocolGuard.SafeExactlyWithRoom | LowLatencyProtocols/kv_api.c:264-303 | the same for every system with room for one longest block for each of its sets |
| ProtocolGuard.FaultReachable | LowLatencyProtocols/kv_api.c:264-303 | a call that does not fit, with room for its client's calls before it, has a run into a fault |
| ProtocolGuard.FittingLengths | LowLatencyProtocols/kv_api.c:264-303 | the exact key and value lengths for which a set or a get fits its control message and its transfer |
| ProtocolProgress.RoomLasts | LowLatencyProtocols/kv_api.c:642-679 | the server allocates only for a set whose request it handles, so the room for all blocks there will be is kept by every step |
| History.GetsSeeLatestSet | LowLatencyProtocols/kv_api.c:395-406 | in a legal order of calls a get finds the value of the latest successful set of its key, and nothing when there is none |
| KeyValueArray.ArrayRefinesMap | LowLatencyProtocols/dynamic_array.h:75-205 | after any sequence of inserts, locks and unlocks keys are unique by content, the array is the finite map of the same operations, and searching it is looking up |
| KeyValueArray.InsertIsUpdate | LowLatencyProtocols/dynamic_array.h:75-109 | inserting is map update, keeps other entries in place, and lengthens the array only for a new key |
| KeyValueArray.FindIsLookup | LowLatencyProtocols/dynamic_array.h:169-179 | a search succeeds exactly for the keys of the map and yields their entry |
| KeyValueArray.DoublingCost | LowLatencyProtocols/dynamic_array.h:99-108 | there is always room, the capacity is the initial one doubled some number of times, and all reallocations together carried fewer than two elements per key |
| KeyValueArray.KeyValueAddressArray.constructor | LowLatencyProtocols/dynamic_array.h:52-60 | an empty array with the asked-for capacity, usable if that is at least 1 |
| KeyValueArray.RoomExactly | LowLatencyProtocols/dynamic_array.h:99-108 | doubling makes room for every number of keys if and only if the array starts with room for one |
| KeyValueArray.KeyValueAddressArray.InsertEntry | LowLatencyProtocols/dynamic_array.h:75-109 | the in-place insertion, with growth, is map update of the key and nothing else |
| KeyValueArray.KeyValueAddressArray.GetPair | LowLatencyProtocols/dynamic_array.h:169-179 | returns a reference to the entry of the key exactly when the key is in the map |
| KeyValueArray.KeyValueAddressArray.SetRegistration | LowLatencyProtocols/dynamic_array.h:187-205 | assigning through such a reference changes the registration of that entry only |
| KvServer.Server.HandleEagerSet | LowLatencyProtocols/kv_api.c:693-744 | updates database, heap and posted replies as the specification of the eager set says, busy case included |
| KvServer.Server.BeginRendezvousSet | LowLatencyProtocols/kv_api.c:609-675 | up to its post the handler leaves the database alone and hands on what is to be recorded |
| KvServer.Server.HandleRendezvousSet | LowLatencyProtocols/kv_api.c:609-681 | the whole handler is the grant followed by its recording |
| KvServer.Server.BeginGet | LowLatencyProtocols/kv_api.c:746-820 | not found, busy, eager and grant cases as specified, with the reference through which a grant is recorded |
| KvServer.Server.HandleGet | LowLatencyProtocols/kv_api.c:746-826 | the whole handler is the reply followed by the recording of a grant |
| KvServer.Server.HandleFin | LowLatencyProtocols/kv_api.c:558-607 | deregisters, unlocks and acknowledges, given that the key exists |
| KvServer.Server.Run | LowLatencyProtocols/kv_api.c:831-904 | with clients writing one-sidedly between visits, the loop serves the clients in turn as the specification says and returns exactly when the last shutdown message is taken |
| KvServer.StopsAtTheLastShutdown | LowLatencyProtocols/kv_api.c:857-867 | over any arrivals the server stops if and only if it has counted N shutdown messages, and never counts more |
| KvServer.StoppedForGood | LowLatencyProtocols/kv_api.c:857-867 | once the server has returned nothing changes |
| ServerRefinement.StepAlike | LowLatencyProtocols/kv_api.c:836-903 | whatever step any party takes, a message the server handles is safe for the program, and memory, count, turn and replies stay alike, inside the window after a grant included |
| ServerRefinement.RunsAlike | LowLatencyProtocols/kv_api.c:836-903 | over every run and interleaving the loop's specification, fed with what the run brings the server, ends with the run's memory, shutdown count, turn and replies |
| ServerRefinement.Serve | LowLatencyProtocols/kv_api.c:831-904 | the server program on what any run brings it stops exactly when the run's server has stopped, has posted the same replies, and holds the same memory between visits |
| ClientRefinement.ReturnedCallIsCall | LowLatencyProtocols/kv_api.c:258-513 | in every run what a client posted, moved byte by byte and received between the start and the return of a call is exactly one call of the program, with its answer |
| ClientRefinement.PerformSet | LowLatencyProtocols/kv_api.c:258-393 | kv_set, given the replies of any returned set of any run, posts and writes what that client did; it returns 0 only if the set took effect and stored its value, 2 only if it was turned away while another client's call on the key overlapped it, and nothing else |
| ClientRefinement.PerformGet | LowLatencyProtocols/kv_api.c:407-513 | the same for kv_get: 0 only with the value the get took effect with, 1 and no value only if it found nothing or was turned away by a rival |
| ClientRefinement.TookEffect | LowLatencyProtocols/kv_api.c:258-513 | in every run a call that an observer of the connection saw return is in the history and took effect with that answer, as busy only with a rival |
| ClientRefinement.CodesOfSet | LowLatencyProtocols/kv_api.c:286-293 | the code 0 is that of a stored value alone, the code 2 that of a busy key alone |
| ClientRefinement.SetChangesTable | LowLatencyProtocols/kv_api.c:286-293 | where a stored set took effect the table is updated at its key with its value, where a busy one did the table stays as it was |
| ClientRefinement.CodesOfGet | LowLatencyProtocols/kv_api.c:500-510 | two answers to a get have the same code if and only if both or neither are values; busy and missing share the code 1 |
| ClientRefinement.FailedGetFoundNothing | LowLatencyProtocols/kv_api.c:500-510 | a get that returned 1 and had no rival took effect when no set of its key had stored |
| KvClient.Connection.KvSet | LowLatencyProtocols/kv_api.c:258-393 | the posts, transfer and replies consumed are those of the client's phases, and the code follows from the replies: 2 for a busy first reply, else 0 exactly for an acknowledgement, of the eager message or of the FIN; a rendezvous reply that is neither a grant nor busy is taken for a grant with whatever it holds |
| KvClient.Connection.KvGet | LowLatencyProtocols/kv_api.c:407-513 | the same for a get: an eager reply gives its value, a granted one the block read and 0 exactly on the acknowledgement, every other reply 1 and no value |
| KvClient.Connection.ShutDownServer | LowLatencyProtocols/main.c:8-18 | sends one shutdown message and awaits no reply |
| KvClient.SetConversation | LowLatencyProtocols/kv_api.c:286-391 | a granted set sends its key and size, writes the whole value with terminator to the granted address, sends its FIN and succeeds exactly on the acknowledgement |
| KvClient.ShortConversation | LowLatencyProtocols/kv_api.c:264-294 | a set that is eager or turned away posts its request only and ends with its first reply |
| KvClient.GetConversation | LowLatencyProtocols/kv_api.c:443-500 | a granted get reads exactly the granted block, sends its FIN and returns the block's string exactly on the acknowledgement |
| KvClient.ShortGetConversation | LowLatencyProtocols/kv_api.c:430-510 | a get that is not granted a read posts its request only and ends with its first reply: a value, busy, or missing |
| Codec.RoundTrip | LowLatencyProtocols/kv_api.h:118-266 | every message that fits, packed into a buffer with any stale contents, is decoded as it was |
| Codec.PayloadLength | LowLatencyProtocols/kv_api.h:118-190 | the payload is the fields in order and exactly as long as the message's size says |
| Codec.SetControlMessage | LowLatencyProtocols/kv_api.h:118-190 | the encoder writes the operation and the payload at the front and leaves the rest of the buffer as it was |
| Codec.DecodeControlMessage | LowLatencyProtocols/kv_api.h:196-266 | the pointers filled in are the offsets of the fields, the shortcut for one field agreeing with the general walk |
| Codec.SwapTwice | LowLatencyProtocols/kv_api.c:663-664 | swapping the byte order of an address or a remote key twice gives it back |
| Codec.SwappedAt | LowLatencyProtocols/kv_api.c:663-664 | byte i of a swapped n-byte number in memory is the quotient by 256^(n-1-i) modulo 256: most significant first |
| Codec.GrantBytes | LowLatencyProtocols/kv_api.c:809-815 | every byte of the payload of both grants, by arithmetic from address, remote key and size: the former two most significant byte first, the size least significant first |
| Codec.SetBytes | LowLatencyProtocols/kv_api.h:130-143 | every byte of both set requests by position: key, terminator, size least significant byte first, value, terminator |
| Codec.FieldsFound | LowLatencyProtocols/kv_api.h:196-266 | the offsets at which the decoder finds the fields of each kind of message, whatever follows it |
| Codec.CodeTellsKind | LowLatencyProtocols/kv_api.h:31-48 | the operation numbers of the messages |
| Codec.EagerGuardGap | LowLatencyProtocols/kv_api.c:264-266 | the guard lets through a message that overruns the buffer exactly for total lengths 4087 to 4094 |
| Codec.EagerGuardGapWitness | LowLatencyProtocols/kv_api.h:130-135 | such a key and value exist |
| Credits.CreditBounds | LowLatencyProtocols/ib_functions.c:919-927 | after a poll the count of posted receives lies above the threshold and within the queue exactly when the queue is deeper than the threshold; shallower queues are filled up every time |
| Credits.CreditSteps | LowLatencyProtocols/ib_functions.c:910-927 | each poll takes one from the count and adds exactly what the refill posts; above the threshold it posts nothing, at it or below it fills the queue |
| Credits.CountsDown | LowLatencyProtocols/ib_functions.c:910-927 | a full queue counts down by one with every poll and is filled up by poll number rx_depth minus threshold, no earlier |
| Polling.PollSends | LowLatencyProtocols/ib_functions.c:823-861 | however the adapter splits completions into batches, success means exactly n completions taken in queue order, all successful and each of a send, a write or a read, and the rest left; it fails if and only if a poll made has failed or a completion taken was unsuccessful or of another kind |
| Polling.ReceiveQueue.PostReceives | LowLatencyProtocols/ib_functions.c:710-735 | fills the queue, or fails with the count unchanged although posts may have gone through |
| Polling.ReceiveQueue.PollNext | LowLatencyProtocols/ib_functions.c:871-930 | success takes exactly the next completion, a successful receive, and leaves one receive fewer posted than before but for the refill: from 11 or fewer the queue is full again, from more the count is down by one; what is posted and not polled is accounted for on every path; a blocking call is still waiting only while no poll found a completion; each kind of problem is told apart |
| Polling.BenchmarkContext.PostReceives | Optimization/bw_template.c:819-845 | posts up to n receives and returns how many were accepted |
| Polling.BenchmarkContext.WaitCompletions | Optimization/bw_template.c:946-1035 | success takes exactly n completions in queue order, all successful, by their identifiers sends or receives and counted as such, and leaves the rest; the count of posted receives is then right. Failure has one of three causes, and the count is then too high by exactly the receive completions that were taken with the failed one or behind it and dropped |
| Polling.CreditsStay | Optimization/bw_template.c:1007-1016 | whatever is taken in whatever order, at least one receive stays posted and never more than the depth |
| Benchmark.Outstanding | Optimization/bw_template.c:1098-1120 | the writes not yet awaited when writing ends are the last incomplete or just completed queue, so the final wait is never for fewer completions than are due |
| Benchmark.FullQueueExactly | Optimization/bw_template.c:1098-1120 | the final control message makes the queue one longer than its depth exactly for a positive multiple of it |
| Benchmark.DrainWhenFull | Optimization/bw_template.c:1101-1104 | a drain is due before a write exactly when the queue is full |
| Benchmark.TrialPlan | Optimization/bw_template.c:1094-1120 | a trial takes exactly iters + 2 completions for its posts and the one answer, never waits for more than can come, and ends balanced |
| Benchmark.RunClientPlan | Optimization/bw_template.c:1531-1542 | the client's whole run keeps its accounts at every instruction and ends with all rounds over |
| Benchmark.RunServerPlan | Optimization/bw_template.c:1531-1542 | the server replies only with one completion more than its earlier rounds account for, and never waits for more than can come |
| BenchmarkRuns.RunKeepsInv | Optimization/bw_template.c:946-1240 | the accounts of both sides agree with their programs and queues after every run |
| BenchmarkTheorems.Lockstep | Optimization/bw_template.c:1064-1137 | for any completion order the server posts reply j only when it has consumed message j and all its earlier completions, and the client posts nothing new before it has consumed every earlier reply, across all phases |
| BenchmarkTheorems.ClientLockstep | Optimization/bw_template.c:1159-1170 | when the client posts, as many replies have been sent and consumed as messages |
| BenchmarkTheorems.ServerLockstep | Optimization/bw_template.c:1202-1240 | when the server posts, it has consumed one message more than it has replied to, and that is all there are |
| BenchmarkTheorems.ReceivesReady | Optimization/bw_template.c:1007-1016 | a control message on its way always finds a receive that the adapter has; the count each side keeps equals those plus the receive completions in its queue, and stays between 1 and the depth |
| BenchmarkTheorems.Drained | Optimization/bw_template.c:1117-1120 | where the accounts balance nothing is outstanding: all sends completed and taken, all messages answered, the queue empty |
| BenchmarkTheorems.TrialsDrain | Optimization/bw_template.c:1159-1170 | between any two trials nothing is outstanding and each trial has taken exactly iters + 2 completions |
| BenchmarkQueue.SendQueueBound | Optimization/bw_template.c:1098-1120 | in every reachable state the outstanding sends are at most tx_depth, or one more right behind the control message that ends a trial whose iterations are a positive multiple of tx_depth |
| BenchmarkQueue.FinalSendExactly | Optimization/bw_template.c:1098-1120 | in every trial of every run that message exceeds tx_depth exactly when iters is a positive multiple of it |
| BenchmarkQueue.ExceedsExactly | Optimization/bw_template.c:1094-1120 | some reachable state has more than tx_depth sends outstanding if and only if there is a trial and iters is a positive multiple of tx_depth |
| BenchmarkQueue.CompletionQueueBound | Optimization/bw_template.c:692 | the client's queue never holds more than its outstanding sends and one reply, so at most tx_depth + 2 completions, the server's never more than 2 |
| BenchmarkQueue.OverflowsExactly | Optimization/bw_template.c:692 | the client's queue of rx_depth + tx_depth entries overflows in some run if and only if rx_depth is 1, there is a trial and iters is a positive multiple of tx_depth |
| BenchmarkTheorems.NoDeadlock | Optimization/bw_template.c:1064-1240 | while either side has something left to do some step is possible |
| BenchmarkTheorems.EveryRunFinishes | Optimization/bw_template.c:1531-1542 | every run can be continued until both sides have finished, and all complete runs have the same number of steps |
| BenchmarkTheorems.FinishedDrains | Optimization/bw_template.c:1531-1542 | when both sides have finished both queues are empty, every message is answered and every completion taken |
| BenchmarkProgram.Endpoint.PerformSingleExperiment | Optimization/bw_template.c:1064-1137 | the loop makes exactly the posts and waits of one trial on either side, and the client's requests are iters writes of the given size and one control message |
| BenchmarkProgram.Endpoint.ThroughputTest | Optimization/bw_template.c:1152-1187 | one trial for each of the 21 message sizes, with the requests of each |
| BenchmarkProgram.TrialsRequestsAt | Optimization/bw_template.c:1155-1171 | request i of trial t is a write of 2^t bytes, or behind the last of them the control message |
| BenchmarkProgram.Endpoint.LatencyTest | Optimization/bw_template.c:1202-1240 | the posts and waits of a latency test on either side |
| BenchmarkProgram.Endpoint.Run | Optimization/bw_template.c:1531-1542 | the whole test, 500 rounds of warm-up, 21 trials and the latency test, makes exactly the posts and waits that the runs of both sides start from, and these requests |
| BenchmarkProgram.WaitIsTakes | Optimization/bw_template.c:946-1035 | the completions a successful wait takes are that many single steps of the run, with the same refills, after which the program can go on |
| WireAddress.GidToWireGid | LowLatencyProtocols/ib_functions.c:96-101 | characters 2i and 2i + 1 are the high and the low digit, in lower case, of byte i in memory; then a terminator |
| WireAddress.WireGidToGid | LowLatencyProtocols/ib_functions.c:79-89 | fills in the bytes that the text parses to with all that %x skips and accepts, and where a word has no digits the word read before it or what the stack held |
| WireAddress.GidRoundTrip | LowLatencyProtocols/ib_functions.c:79-101 | the text of any 16-byte identifier parses back to it |
| WireAddress.GidInOrder | LowLatencyProtocols/ib_functions.c:96-101 | swapping each loaded word and printing it as a number prints the bytes in order |
| WireAddress.PrintedDigit | LowLatencyProtocols/ib_functions.c:278-279 | digit i from the right of a padded number is that of the quotient by 16^i modulo 16, in lower case |
| WireAddress.ScanLaw | LowLatencyProtocols/ib_functions.c:79-89 | %x skips white space, takes a sign and a 0x, reads digits of either case up to the first character that is none, and stores the converted value |
| WireAddress.GidReadAt | LowLatencyProtocols/ib_functions.c:84-88 | the number read from each eight characters is stored most significant byte first |
| WireAddress.AddressRoundTrip | LowLatencyProtocols/ib_functions.c:274-300 | the message parses back to the same address, and has exactly 51 characters if and only if lid, qpn and psn are in range |
| WireAddress.ExtendedRoundTrip | Optimization/bw_template.c:432-458 | the same for the longer message with address and remote key, at 77 characters |
| WireAddress.PrintAddress | LowLatencyProtocols/ib_functions.c:274-279 | fills the buffer of 52 characters with lid in digits 0-3, qpn in 5-10, psn in 12-17, the bytes of the gid from 19 on, colons between and a terminator behind; it parses back |
| WireAddress.PrintExtended | Optimization/bw_template.c:432-437 | the same for 78 characters, with the address in digits 19-34, the remote key in 36-43 and the gid from 45 on; it parses back |

## Left out

- Device, socket and queue-pair setup and teardown (`kv_open`, `kv_close`, `pp_init_ctx`, `pp_close_ctx`, `pp_connect_ctx`, `listen_to_websocket`): foreign calls; runs start from connected queue pairs.
- The verbs library itself: it appears as posting, landing, completing, moving a byte and registering.
- Error completions, failing posts and registrations, and clients that crash, in the protocol: the code only prints or returns, and a crashed client leaves its key locked. `Polling` does model failed polls, bad completions and rejected posts.
- The bandwidth test ignores the return value of `pp_wait_completions`; its runs assume that every wait succeeds.
- `delete_from_array`: never called, and off by one as written.
- Freeing memory: the frees guarded by `kv_malloc` never run because `set_kv_malloc` compares instead of assigning (LowLatencyProtocols/dynamic_array.h:20); blocks of overwritten values are never reused, as in the code.
- Client-side registrations of the local buffer: they are made and released within one call and seen by no other party.
- Two threads using one client handle: a client runs its calls one after the other, as the single shared receive buffer requires (LOG:54-57).
- `Baseline/`, timing, throughput arithmetic, printing, option parsing, random values, MTU mapping and inline flags: no protocol state depends on them.
- Polling.ReceiveQueue.PollNext: a blocking call polls on for ever over failed polls and an empty queue, as the code does; the model stops it when the given sequence of polls ends.
