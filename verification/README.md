# Verified models of the server's stateful core

Seven components of the HTTP server keep state or speak a protocol that no single function shows. This project models
each of them in Dafny, in the form its C code has (fields and arrays updated in place by methods), and proves what the
component promises over every input and every interleaving.

| component | source | modules |
|---|---|---|
| MPS reader: fragments in, a byte stream with commit, pause and replay out | `mps_reader.c` | `ReaderSpec`, `ReaderAnswers`, `Reader` |
| C ABI runtime: host threads, owner thread, notifier thread, reference counts, byte budget, close barrier | `bridge.c` | `BridgeHeap`, `BridgeObjects`, `Bridge`, `BridgeOrder`, `BridgeSteps`, `BridgeHost`, `BridgeOwner`, `BridgeRuns`, `BridgeLater`, `BridgeTheorems`, `BridgeAnswers`, `BridgeOwnerAnswers`, `BridgeHolds`, `BridgeBarrier`, `BridgeQueues`, `BridgeQueueRuns`, `BridgeLiveList`, `BridgeLiveRuns`, `BridgeRuntime`, `BridgeRuntimeRuns` |
| rooted open: a path resolver over directory descriptors and symbolic links | `native.c` | `Paths`, `Confinement`, `Resolver` |
| executor: one job queue over several pools, min-of-limits admission, credit | `native.c` | `Executor`, `ExecutorRuns`, `ExecutorAnswers`, `ExecutorListing`, `ExecutorBudget`, `ExecutorDrive` |
| Node adapter: environment, works, wrapped handles, cleanup hook | `async_addon.c` | `Node`, `NodeProofs`, `NodeFates`, `NodeAnswers`, `NodeAdapter`, `NodeRuns` |
| session ticket keys and the ticket layout | `ssl_ticket.c` | `Tickets` |
| session cache | `ssl_cache.c` | `Cache`, `CacheStore` |
| TLS byte buffers | `tls_bridge.c` | `Fifo` |

`Basics` holds `Option`, bytes and a bit; `Counting` holds counts, sums and balances over maps; `NodeMap` relates
addresses to the nodes that stand for them. Check the whole project with `dafny verify dfyconfig.toml`.

## How the models are built

**Reader.** `ReaderSpec` is the intended stream: all bytes fed so far, a cursor and a commit mark. Class
`Reader.Reader` has the C fields, the two overlapping buffers and the union field, with sizes that wrap. Each of its
methods is proved equal to one step of the stream, so the theorems about runs of the stream hold of the buffers.

**Runtime.** Every locked section of `bridge.c` is one atomic step of one `World`; between steps any thread may move.
Objects are addresses, and each struct field is a map from addresses, so that aliasing between operations, responses,
chunks and instances is explicit: a dangling pointer would be a key that is missing. `BridgeHeap` and `BridgeObjects`
prove each heap change keeps the books, `BridgeSteps`, `BridgeHost` and `BridgeOwner` prove each step keeps the whole
invariant, `BridgeRuns` and `BridgeTheorems` read the results off for every reachable state. Class
`BridgeRuntime.Runtime` holds the globals as fields and runs the sections statement by statement; `BridgeRuntimeRuns`
performs whole runs on it. `BridgeQueues` is the pair of intrusive queues on real pointers, `BridgeLiveList` the
intrusive list of live instances; `BridgeQueueRuns` and `BridgeLiveRuns` drive them through whole runs.
`BridgeBarrier` runs the wait loops of `release_barrier` and `reap_runtime`, where each wait is any finite run of
other threads' steps and the caller holds an engine handle, an operation handle or nothing (`BridgeHolds`).

**Answers.** The modules `ReaderAnswers`, `BridgeAnswers`, `BridgeOwnerAnswers`, `ExecutorAnswers` and `NodeAnswers` say
for every call exactly when it answers what, and what it then changes, in terms of the state or of the history alone.

**Executor and Node adapter** follow the same plan: a world, its steps, an invariant kept by every step, a class whose
methods are the steps, and a driver that performs whole runs on its fields.

**Resolver.** `Paths` has a plain recursive resolver confined to the root (`Resolve`), the walk that the operating
system would do from the top of the file system (`Walk`), and the one deviation of the code (`Swallows`);
`Confinement` says exactly when the two agree.
`Resolver.Course` adds the limits: path length, 256 levels, free descriptors, an unknown root path. Class
`Resolver.Opening` is the C loop with its 256-slot descriptor array and remaining path, over a small kernel model that
tracks which descriptors are open, and answers exactly what the course comes to.

**Cache.** `Cache` has the chain's contents as a sequence and the map that it stands for; `CacheStore` is the linked
chain, searched, overwritten, appended and unlinked in place.

## Where the code does not do what one might expect

- Rooted open: an absolute link exactly to the root, followed by more components, leaves a remaining path that starts
  with a slash, and the code reports it as not found (`internal/native/native.c:416`). `Paths.RootLinkIsSwallowed` is
  a concrete case; `Paths.LiteralExactly` and `Resolver.OpenedIsResolved` say exactly when the code and the plain
  resolver agree.
- Session cache: the age of an entry is cast to a signed 32-bit value, so an entry 2^31 seconds old is not expired.
  `Cache.ExpiryWraps` is a concrete case, `Cache.ExpiryExactly` and `Cache.ExpiryRightExactly` are the exact
  conditions, and `Cache.AgreesExactly` says for which lengths of life the cache still stands for the map. A timestamp
  of 0 stands for "none seen yet" in the search for the oldest entry; `Cache.ZeroStampIsPassedOver` is a concrete
  chain and `Cache.VictimIsOldestExactly` says when that search is right.
- Tickets: a session state longer than 65535 bytes makes the writer return success with a ticket of length 0
  (`Tickets.OversizedStateIsLost`, a concrete state; `Tickets.VerdictExactly`, exactly when).
- Reader: a `get` that is asked for less than everything (`whole == false`) while replaying from the accumulator still
  gets the full amount or an inconsistency error, never a short answer. The stream says the same.
- Runtime: a runtime whose owner thread cannot start goes from state 0 to 3 within one locked section, and one whose
  notifier cannot start is back at 0 before the lock is released; the steps show the state at unlock.

## Model

| member | source | states |
|---|---|---|
| ReaderSpec.StepAgrees | tls/mbedtls-4.2.0/library/mps_reader.h:43-77 | Every call, failing ones included, keeps the stream in agreement with the history of what was sent, committed and tentatively read |
| ReaderSpec.RunAgrees | tls/mbedtls-4.2.0/library/mps_reader.h:43-77 | The agreement holds after every sequence of calls |
| ReaderSpec.NextBytes | tls/mbedtls-4.2.0/library/mps_reader.c:215-381 | A successful get continues the stream exactly at the cursor, is no longer than asked, and is exactly as long as asked when no short answer is accepted |
| ReaderSpec.DeliversInOrder | tls/mbedtls-4.2.0/library/mps_reader.c:146-536 | After any run, committed bytes plus tentative bytes plus the next answer are a prefix of all accepted fragments: nothing lost, repeated or reordered |
| ReaderSpec.ReclaimRewinds | tls/mbedtls-4.2.0/library/mps_reader.c:397-536 | Every reclaim but the no-accumulator and wrong-mode refusals puts the cursor at the last commit; one that detaches without pausing has had everything committed |
| ReaderSpec.FeedAllAttaches | tls/mbedtls-4.2.0/library/mps_reader.c:146-213 | Fragments that together cover what is missing, however they are cut, end with a fragment attached and the accumulator exactly full |
| ReaderSpec.ReplayInsideBlock | tls/mbedtls-4.2.0/library/mps_reader.c:302-333 | Gets that stay inside the backed-up block all succeed and return its bytes in order |
| ReaderSpec.ReplayFrom | tls/mbedtls-4.2.0/library/mps_reader.c:463-517 | After a pause and enough feeds the recorded sizes replay to the bytes read before, ending where the failed request began |
| ReaderSpec.ResumesFrom | tls/mbedtls-4.2.0/library/mps_reader.c:302-361 | After the replay the request that failed succeeds in full as one block |
| ReaderSpec.ReplayGuarantee | tls/mbedtls-4.2.0/library/mps_reader.c:163-202 | For every run that ends in a pausing reclaim and every way of feeding enough, the earlier gets replay with the same bytes and the failed one is served whole |
| ReaderAnswers.AnswersExactly | tls/mbedtls-4.2.0/library/mps_reader.c:146-536 | After any run, which status each call answers, and for a get how many bytes, is decided exactly by the calls and replies so far: what was sent, read and committed, whether a feed has been accepted since the last full reclaim, and what was found missing |
| ReaderAnswers.StepSees | tls/mbedtls-4.2.0/library/mps_reader.c:146-536 | What an observer of the calls and replies writes down, one call after the other, is where the reader is |
| ReaderAnswers.CommittedFragmentEnds | tls/mbedtls-4.2.0/library/mps_reader.c:383-461 | When all that was sent is fetched and no get fell short, commit answers Ok, the reclaim after it answers Ok without pausing, and the next feed is accepted |
| Reader.WrapChecksExact | tls/mbedtls-4.2.0/library/mps_reader.c:477-490 | The two wrap-around checks and the length check reject exactly when the true sum exceeds the accumulator |
| Reader.AccumulateRepresents | tls/mbedtls-4.2.0/library/mps_reader.c:163-202 | Copying a fragment into the accumulator represents the stream after the feed, whether or not it satisfies the pending request |
| Reader.FeedRepresents | tls/mbedtls-4.2.0/library/mps_reader.c:203-212 | Attaching a fragment without a pending request represents the stream after the feed |
| Reader.GetFromAccRepresents | tls/mbedtls-4.2.0/library/mps_reader.c:302-333 | A get served from the accumulator is refused or granted exactly when the stream says so, inside the filled part of the accumulator |
| Reader.GrantFromFragment | tls/mbedtls-4.2.0/library/mps_reader.c:336-381 | Bytes taken from the fragment are the next bytes of the stream |
| Reader.FragmentRequest | tls/mbedtls-4.2.0/library/mps_reader.c:336-381 | What the fragment still holds is what the stream has left, so full grant, short grant and the recorded shortage are the stream's |
| Reader.PauseRepresents | tls/mbedtls-4.2.0/library/mps_reader.c:461-517 | Moving both parts of the backup to the front of the accumulator represents the paused stream |
| Reader.RefusedRepresents | tls/mbedtls-4.2.0/library/mps_reader.c:477-505 | A backup that does not fit leaves the stream rewound to its commit |
| Reader.Reader.constructor | tls/mbedtls-4.2.0/library/mps_reader.c:126-137 | A new reader is the empty stream |
| Reader.Reader.Feed | tls/mbedtls-4.2.0/library/mps_reader.c:146-213 | Equals the stream's feed in new state and status, for null, repeated and completing fragments alike |
| Reader.Reader.Accumulate | tls/mbedtls-4.2.0/library/mps_reader.c:163-202 | The accumulating feed, with its copy in place, equals the stream's feed |
| Reader.Reader.Get | tls/mbedtls-4.2.0/library/mps_reader.c:215-381 | Status and bytes are the stream's, and the returned pointer lies inside the accumulator or the fragment |
| Reader.Reader.GetFromAccumulator | tls/mbedtls-4.2.0/library/mps_reader.c:302-333 | The accumulator branch of get |
| Reader.Reader.GetFromFragment | tls/mbedtls-4.2.0/library/mps_reader.c:336-381 | The fragment branch of get |
| Reader.Reader.Commit | tls/mbedtls-4.2.0/library/mps_reader.c:383-395 | Equals the stream's commit, which answers Ok exactly as AnswersExactly says |
| Reader.Reader.Reclaim | tls/mbedtls-4.2.0/library/mps_reader.c:397-536 | Equals the stream's reclaim in new state, status and paused flag |
| Reader.Reader.Pause | tls/mbedtls-4.2.0/library/mps_reader.c:438-525 | Backs up and detaches if everything fits, else rewinds, as the stream does |
| Reader.Reader.Refuse | tls/mbedtls-4.2.0/library/mps_reader.c:486-505 | A backup that does not fit is the stream's refusal, rewound to the commit |
| Reader.Reader.RunShort | tls/mbedtls-4.2.0/library/mps_reader.c:347-361 | A request beyond the fragment records the missing bytes as the stream does |
| Reader.Reader.BackupPlan | tls/mbedtls-4.2.0/library/mps_reader.c:461-475 | The two backup ranges together are exactly the uncommitted bytes of the stream |
| Reader.Reader.Save | tls/mbedtls-4.2.0/library/mps_reader.c:507-515 | The overlapping move and the copy leave both ranges one after the other at the front |
| Reader.Perform | tls/mbedtls-4.2.0/library/mps_reader.c:146-536 | Any call on the buffers has the stream's reply |
| Reader.Drive | tls/mbedtls-4.2.0/library/mps_reader.c:126-536 | A whole run on the buffers has the stream's history, and what was read is a prefix of what was fed |
| BridgeHeap.FreedInstanceIsClean | c_abi/runtime/bridge.c:129-132 | An instance without holders owes nothing: charged bytes, responses, active and unannounced operations are all zero |
| BridgeHeap.InstDropSound | c_abi/runtime/bridge.c:129-132 | Dropping a reference keeps all counts and books exact and frees on the last one |
| BridgeHeap.RespDropSound | c_abi/runtime/bridge.c:154-162 | The same for a response, which gives back its charge and its instance |
| BridgeHeap.OpDropSound | c_abi/runtime/bridge.c:163-177 | The same for an operation, which gives back its charge, its response and its instance |
| BridgeObjects.AddOpSound | c_abi/runtime/bridge.c:325-354 | A new operation enters every count and book it belongs to |
| BridgeObjects.AddInstSound | c_abi/runtime/bridge.c:383-395 | A new instance starts with one reference and empty books |
| BridgeObjects.AddRespSound | c_abi/runtime/bridge.c:795-831 | A new response is counted by its instance, charged and held by its handle |
| BridgeObjects.GrowRespSound | c_abi/runtime/bridge.c:832-847 | A header adds to the response's charge and to its instance and the total alike |
| BridgeObjects.AddChunkSound | c_abi/runtime/bridge.c:848-881 | A new chunk refers to its response and instance and is counted by both |
| BridgeObjects.ChunkDropSound | c_abi/runtime/bridge.c:642-656 | A released chunk gives back its bytes and both references |
| BridgeObjects.SettleSound | c_abi/runtime/bridge.c:919-921 | A result ends the operation's activity and its reading together |
| BridgeOwner.ToldDrop | c_abi/runtime/bridge.c:282-284 | A returned callback takes the runtime's reference |
| BridgeOrder.AdmitQueued | c_abi/runtime/bridge.c:203-212 | Enqueueing keeps the queues duplicate-free and the history complete |
| BridgeOrder.PopQueued | c_abi/runtime/bridge.c:708-719 | Popping yields an operation without a result and keeps the queue facts |
| BridgeOrder.AnnounceQueued | c_abi/runtime/bridge.c:922-927 | A result moves an operation to the notices exactly once |
| BridgeOrder.TakeQueued | c_abi/runtime/bridge.c:274-277 | Taking a notice starts its callback and no other |
| BridgeOrder.ToldQueued | c_abi/runtime/bridge.c:279-284 | A returned callback extends the called history by the next completed operation |
| BridgeOrder.InitGood | c_abi/runtime/bridge.c:57-66 | The state of a freshly loaded library meets the invariant |
| BridgeOrder.ShrinkGood | c_abi/runtime/bridge.c:129-177 | The invariant survives every release that only takes objects away |
| BridgeSteps.AdmitGood | c_abi/runtime/bridge.c:325-354 | new_op followed by enqueue keeps the whole invariant |
| BridgeSteps.AbandonUndoes | c_abi/runtime/bridge.c:355-363 | new_op followed by abandon restores the heap exactly |
| BridgeSteps.RejectedLeavesNoTrace | c_abi/runtime/bridge.c:543-569 | A call turned down after new_op leaves nothing but used serial numbers |
| BridgeSteps.SubmitGood | c_abi/runtime/bridge.c:507-572 | A request, accepted or refused in any of its ways, keeps the invariant |
| BridgeSteps.ReadGood | c_abi/runtime/bridge.c:581-617 | A body read keeps the invariant and the one-reader rule |
| BridgeHost.CloseGood | c_abi/runtime/bridge.c:442-463 | A close keeps the invariant |
| BridgeHost.CreateFailureLeavesNoTrace | c_abi/runtime/bridge.c:403-418 | A create that fails after making the instance leaves nothing but used serial numbers |
| BridgeHost.CreateGood | c_abi/runtime/bridge.c:298-430 | Starting the runtime and creating an instance, on every failure path, keeps the invariant |
| BridgeHost.ReleaseResponseGood | c_abi/runtime/bridge.c:618-637 | Releasing a response, with or without the internal command, keeps the invariant |
| BridgeHost.ReleaseChunkGood | c_abi/runtime/bridge.c:642-656 | Releasing a chunk keeps the invariant |
| BridgeHost.ReleaseOpGood | c_abi/runtime/bridge.c:486-496 | Releasing an operation keeps the invariant |
| BridgeHost.ReleaseEngineGood | c_abi/runtime/bridge.c:472-482 | Releasing an engine keeps the invariant |
| BridgeOwner.PopGood | c_abi/runtime/bridge.c:708-719 | Popping a command keeps the invariant |
| BridgeOwner.LimitsGood | c_abi/runtime/bridge.c:786-794 | New limits, also lower ones, keep the invariant |
| BridgeOwner.MakeResponseGood | c_abi/runtime/bridge.c:795-831 | Making a response keeps the invariant |
| BridgeOwner.SetHeaderGood | c_abi/runtime/bridge.c:832-847 | Charging a header keeps the invariant |
| BridgeOwner.MakeChunkGood | c_abi/runtime/bridge.c:848-881 | Making a chunk keeps the invariant |
| BridgeOwner.CompleteGood | c_abi/runtime/bridge.c:882-931 | A result of any kind and code, with its handle, retirement or dropped response, keeps the invariant |
| BridgeOwner.DrainPopGood | c_abi/runtime/bridge.c:243-249 | Failing the queued commands one by one keeps the invariant at each unlock |
| BridgeOwner.DrainCompleteGood | c_abi/runtime/bridge.c:248-251 | Completing the command being drained with an I/O error keeps the invariant |
| BridgeOwner.RetireAllGood | c_abi/runtime/bridge.c:252-258 | The retiring loop keeps the invariant and empties the live list |
| BridgeOwner.DrainEndGood | c_abi/runtime/bridge.c:252-261 | The end of the owner thread keeps the invariant |
| BridgeOwner.TakeGood | c_abi/runtime/bridge.c:269-280 | Starting a callback hands its results to the host and keeps the invariant |
| BridgeOwner.ToldGood | c_abi/runtime/bridge.c:281-287 | The return of a callback keeps the invariant |
| BridgeRuns.NextGood | c_abi/runtime/bridge.c:87-931 | Every enabled step of every thread keeps the invariant |
| BridgeRuns.RunGood | c_abi/runtime/bridge.c:87-931 | Every interleaving keeps the invariant |
| BridgeRuns.ReachableIsGood | c_abi/runtime/bridge.c:57-66 | Every reachable state meets it |
| BridgeRuns.InstanceRefs | c_abi/runtime/bridge.c:389-427 | In every reachable state an instance's count is live-list membership plus its operations, responses, chunks and host handle |
| BridgeRuns.ResponseRefs | c_abi/runtime/bridge.c:607-637 | A response's count is its operations plus its chunks plus its handle, and its chunk field is the number of unreleased chunks |
| BridgeRuns.OperationRefs | c_abi/runtime/bridge.c:341-346 | An operation's count is one while its callback has not returned plus one while the host holds it |
| BridgeRuns.AllocatedIffHeld | c_abi/runtime/bridge.c:129-177 | An object is allocated exactly while something refers to it |
| BridgeRuns.BytesConserved | c_abi/runtime/bridge.c:115-128 | The retained total is the sum of the instances' charges and at most 67108864; each charge is the balance of that instance's own operations, responses and chunks |
| BridgeRuns.OneReader | c_abi/runtime/bridge.c:594-611 | The reading flag is set exactly when one uncompleted read refers to the response, and never two do |
| BridgeLater.NextLater | c_abi/runtime/bridge.c:530-533 | Every step only extends the history and admits nothing on a closing instance |
| BridgeTheorems.CallbacksInOrder | c_abi/runtime/bridge.c:265-297 | Callbacks run at most once, one at a time, in completion order, only for accepted and completed operations; the two queues are disjoint |
| BridgeTheorems.AllCalledAtRest | c_abi/runtime/bridge.c:288-297 | In states 0, 4 and 5 both queues and the live list are empty and exactly the accepted operations have had their callback |
| BridgeTheorems.StepMoves | c_abi/runtime/bridge.c:213-324 | Each step takes one edge of the state cycle and starts or joins a notifier only on leaving or reaching 0 |
| BridgeTheorems.StateFollowsGenerations | c_abi/runtime/bridge.c:87-100 | The state follows its cycle, and notifiers started are notifiers joined plus the one now running |
| BridgeTheorems.ClosingOnlySubsides | c_abi/runtime/bridge.c:442-463 | Over any run from a closing instance its active and unannounced counts never rise and closed stays closed |
| BridgeTheorems.HistoryGrows | c_abi/runtime/bridge.c:203-287 | What was accepted, completed and called stays so, in the same order |
| BridgeTheorems.NothingLeaks | c_abi/runtime/bridge.c:129-177 | At rest, with the host holding nothing, no object and no byte is left |
| BridgeHolds.HoldKept | c_abi/runtime/bridge.c:101-114 | No step of others takes a host's handle on an engine or an operation away, and it stands for the same instance ever after |
| BridgeBarrier.StepKept | c_abi/runtime/bridge.c:101-114 | Other threads' steps keep the waiting host's handle, whatever its kind, on the same instance and undo none of what was waited for |
| BridgeBarrier.WaitKept | c_abi/runtime/bridge.c:101-114 | The same over a whole wait |
| BridgeBarrier.ReapOnce | c_abi/runtime/bridge.c:87-100 | One turn of the reaping loop joins a finished runtime, with other threads running during the join |
| BridgeBarrier.Reap | c_abi/runtime/bridge.c:87-100 | With a handle or none: when the loop ends the runtime is below state 3 |
| BridgeBarrier.WaitClosed | c_abi/runtime/bridge.c:104-107 | When both loops end the instance is closed with nothing unannounced |
| BridgeBarrier.WaitJoined | c_abi/runtime/bridge.c:108-113 | When the loop ends another instance is live or the runtime is joined |
| BridgeBarrier.ReleaseBarrier | c_abi/runtime/bridge.c:101-114 | With an engine handle or only an operation handle: returns at once on library threads or an open instance; else on return the instance is closed, quiet, and another is live or the threads are joined |
| BridgeBarrier.EngineRelease | c_abi/runtime/bridge.c:472-482 | The whole release: at once, or after the barrier with the instance closed and quiet |
| BridgeBarrier.OperationRelease | c_abi/runtime/bridge.c:486-496 | An early release does not wait; one of a closed instance returns with it quiet, though only the operation is held |
| BridgeBarrier.CreateAfterReap | c_abi/runtime/bridge.c:298-324 | A create call that finds an old runtime reaps it first, holding nothing, and if it succeeds a new runtime is up |
| BridgeBarrier.BarrierHoldsForGood | c_abi/runtime/bridge.c:101-114 | A closed and quiet instance stays so, with nothing active, over every later run |
| BridgeQueues.Queues.constructor | c_abi/runtime/bridge.c:59-59 | Both queues start empty |
| BridgeQueues.Queues.Enqueue | c_abi/runtime/bridge.c:203-212 | On pointers: appends an operation that is in neither list; both chains stay acyclic, disjoint and tail-correct |
| BridgeQueues.Queues.Pop | c_abi/runtime/bridge.c:708-719 | On pointers: takes the oldest command, with or without clearing its link |
| BridgeQueues.Queues.Notify | c_abi/runtime/bridge.c:922-927 | On pointers: appends an operation that is in neither list to the notices through the same link field |
| BridgeQueues.Queues.Take | c_abi/runtime/bridge.c:274-277 | On pointers: takes the oldest notice |
| BridgeQueueRuns.StepMove | c_abi/runtime/bridge.c:203-927 | Every step of every thread is at most one push of a new operation, one pop, one announcement of a popped one, one take or one return |
| BridgeQueueRuns.Act | c_abi/runtime/bridge.c:203-927 | A step acted out on the linked lists: no operation is ever in a list when it is linked, and the lists stay the state machine's queues |
| BridgeQueueRuns.Drive | c_abi/runtime/bridge.c:203-927 | After every run, and so at each of its steps, the two linked lists are the command and notice queues node for node: disjoint, acyclic, tail-correct |
| BridgeLiveList.LiveList.Push | c_abi/runtime/bridge.c:423-424 | On pointers: a new instance becomes the head of the list |
| BridgeLiveList.LiveList.Unlink | c_abi/runtime/bridge.c:77-83 | On pointers: the search through the links takes out the first such node, wherever it is, and changes nothing if there is none |
| BridgeLiveList.LiveList.Drain | c_abi/runtime/bridge.c:252-254 | On pointers: every node leaves, the first one first |
| BridgeLiveRuns.StepChange | c_abi/runtime/bridge.c:252-914 | Every step of every thread pushes at most one instance that is not on the list, or unlinks one that is, or empties the list |
| BridgeLiveRuns.Drive | c_abi/runtime/bridge.c:60-914 | After every run, and so at each of its steps, the linked list is the live list node for node: acyclic, without duplicates, as long as the count of instances, and without a freed one |
| BridgeAnswers.SubmitExactly | c_abi/runtime/bridge.c:507-572 | In every reachable state and for every handle in use, when each code arises: closed, limit (as many uncompleted operations as the capacity allows, or serials, memory or bytes short), invalid copy, or Ok with exactly one new request last in the queue; else nothing happens |
| BridgeAnswers.ReadExactly | c_abi/runtime/bridge.c:581-617 | The same for a read: closed or released, busy exactly while an uncompleted read refers to the response, limit, or Ok with one new read last in the queue |
| BridgeAnswers.CloseExactly | c_abi/runtime/bridge.c:442-463 | The same for a close, which is never charged; Ok makes the instance closing |
| BridgeAnswers.CreateExactly | c_abi/runtime/bridge.c:364-430 | The same for a create call: too many operations or instances, a thread that cannot start, serials, memory or bytes short, or Ok with a live instance, a runtime that is up and its creation last in the queue |
| BridgeOwnerAnswers.MakeResponseExactly | c_abi/runtime/bridge.c:795-831 | A response is made exactly if memory, the instance's response limit and its bytes allow |
| BridgeOwnerAnswers.SetHeaderExactly | c_abi/runtime/bridge.c:832-847 | A header is charged exactly if its bytes fit the instance's budget and the global limit |
| BridgeOwnerAnswers.MakeChunkExactly | c_abi/runtime/bridge.c:848-881 | A chunk is made exactly if memory and bytes allow |
| BridgeOwnerAnswers.LimitsExactly | c_abi/runtime/bridge.c:786-794 | The three limits of the operation's instance are set and nothing else |
| BridgeOwnerAnswers.IdleExactly | c_abi/runtime/bridge.c:720-735 | The runtime begins to end exactly if nothing is live, no callback is outstanding and no command waits |
| BridgeOwnerAnswers.ReleaseResponseExactly | c_abi/runtime/bridge.c:618-637 | The handle is gone, and an internal command is queued exactly on the first release while the instance is not closing and a serial and memory are left |
| BridgeOwnerAnswers.CompleteExactly | c_abi/runtime/bridge.c:882-931 | A second completion does nothing; the first announces the operation, hands out the engine exactly for a creation with code 0, retires the instance exactly for a close or failed creation, and drops the event's response exactly on an error |
| BridgeOwnerAnswers.ReleasesExactly | c_abi/runtime/bridge.c:472-656 | A released chunk is gone with its bytes, a released operation loses the host's reference and is gone exactly if its callback has returned, a released engine loses its handle; nothing is queued |
| BridgeOwnerAnswers.PopsExactly | c_abi/runtime/bridge.c:708-719 | The oldest command is popped, also while the owner drains |
| BridgeOwnerAnswers.TakeExactly | c_abi/runtime/bridge.c:274-281 | The oldest notice is taken, and exactly what its event carries becomes the host's |
| BridgeOwnerAnswers.ToldExactly | c_abi/runtime/bridge.c:281-287 | A returned callback tells its operation, which is gone unless the host holds it |
| BridgeRuntime.SubmittedIsSubmit | c_abi/runtime/bridge.c:543-569 | A request made and taken back comes to the same as one never made, but for serial numbers |
| BridgeRuntime.CreatedBodyIsCreateBody | c_abi/runtime/bridge.c:396-418 | The same for a create call |
| BridgeRuntime.Runtime.NewOp | c_abi/runtime/bridge.c:325-354 | Fails exactly on exhausted serials, memory or budget, changing nothing; else the heap gains the operation |
| BridgeRuntime.Runtime.AbandonOp | c_abi/runtime/bridge.c:355-363 | Its statements amount to the heap change that AbandonUndoes is about |
| BridgeRuntime.Runtime.SubmitAsync | c_abi/runtime/bridge.c:528-572 | World and return code of the whole locked section are those that SubmitExactly is about, refusals leaving only a used serial number |
| BridgeRuntime.Runtime.StartRuntime | c_abi/runtime/bridge.c:298-324 | World and result of a start with state 0, 1 or 2 |
| BridgeRuntime.Runtime.CreateAsync | c_abi/runtime/bridge.c:370-430 | World and return code of the whole locked section equal the create step that CreateExactly is about |
| BridgeRuntime.Runtime.CloseAsync | c_abi/runtime/bridge.c:448-462 | Equals the close step and its return code, which CloseExactly is about |
| BridgeRuntime.Runtime.ReadAsync | c_abi/runtime/bridge.c:588-617 | Equals the read step and its return code, which ReadExactly is about |
| BridgeRuntime.Runtime.ResponseRelease | c_abi/runtime/bridge.c:618-637 | Equals the release step |
| BridgeRuntime.Runtime.ChunkRelease | c_abi/runtime/bridge.c:642-656 | Equals the release step |
| BridgeRuntime.Runtime.RetireInstance | c_abi/runtime/bridge.c:899-917 | Equals the retiring of an instance |
| BridgeRuntime.Runtime.CompleteOp | c_abi/runtime/bridge.c:882-931 | Equals the completion step, which CompleteExactly is about |
| BridgeRuntime.Runtime.RetireLive | c_abi/runtime/bridge.c:252-261 | The loop equals the end of the drain |
| BridgeRuntime.Runtime.CallbackReturned | c_abi/runtime/bridge.c:281-287 | Equals the return of a callback |
| BridgeRuntimeRuns.Perform | c_abi/runtime/bridge.c:87-931 | Any step of any thread, performed on the fields, is the step of the state machine and keeps the invariant |
| BridgeRuntimeRuns.Drive | c_abi/runtime/bridge.c:87-931 | Any run on the fields ends in the state machine's state, with callbacks run at most once in completion order, all bytes accounted for, and every accepted operation called back once it is at rest |
| Paths.ComponentsJoin | internal/native/native.c:416-416 | Joining two path pieces with a slash joins their components |
| Paths.BeneathComponents | internal/native/native.c:411-413 | An absolute link that passes the prefix test leads exactly to its remaining components below the root |
| Paths.LiteralExactly | internal/native/native.c:386-431 | The code's meaning is the plain confined resolver's, except that it is not-found exactly when a root link is followed by more |
| Paths.NothingSwallowed | internal/native/native.c:408-418 | A tree without links exactly to the root never meets the exception |
| Paths.RootLinkIsSwallowed | internal/native/native.c:416-416 | A concrete tree and path on which the code reports not found and the plain resolver succeeds |
| Paths.ResolveStaysInside | internal/native/native.c:386-431 | A successful resolution names an existing node of the rooted tree that is not a link |
| Paths.ResolveAgreesWithWalk | internal/native/native.c:386-431 | A successful confined resolution is where the system's own unconfined walk would have ended |
| Confinement.TrimmedIs | internal/native/native.c:410-411 | Trimming takes slashes off the end of the root's path, all but a first character, and nothing else |
| Confinement.BeneathExactly | internal/native/native.c:411-413 | An absolute link lies beneath the root exactly if it is the trimmed root path followed by nothing, by a slash, or by anything if the root is the top; then what is left is what follows without its leading slashes |
| Confinement.ConfinedExactly | internal/native/native.c:386-431 | The confined resolver answers the escape error exactly for the walks that leave the root, told by the ordinary walk alone, and answers all others as that walk does, errors included |
| Resolver.PopStacked | internal/native/native.c:397-397 | Closing the top descriptor keeps the stack a chain of real children from the root |
| Resolver.PushStacked | internal/native/native.c:420-424 | Opening a child and pushing it keeps the stack a chain of real children, beside the caller's descriptors |
| Resolver.CourseMeans | internal/native/native.c:391-426 | A resolution that meets no limit ends as the literal resolver says, over strings as over components |
| Resolver.LimitsNeed | internal/native/native.c:389-423 | Each limit is met only for its own reason: long links or paths, 256 levels, too few descriptors, no root path |
| Resolver.Opening.Dots | internal/native/native.c:394-398 | The two dot components follow the course, and going up at the root is the escape error |
| Resolver.Opening.Target | internal/native/native.c:402-417 | The link, read through a buffer that cuts it off, is replaced by what the course says, or refused with its error, and the result fits the path buffer |
| Resolver.Opening.Expand | internal/native/native.c:402-418 | Replacing a link by its target follows the course and uses up one link |
| Resolver.Opening.Last | internal/native/native.c:420-422 | The last component's descriptor or its error is where the course ends |
| Resolver.Opening.Deeper | internal/native/native.c:420-424 | A middle component is entered or fails as the course says, at 256 levels with its descriptor closed |
| Resolver.Opening.Turn | internal/native/native.c:391-425 | One turn of the loop follows the course and decreases links left, then path length |
| Resolver.Opening.Run | internal/native/native.c:391-426 | The loop ends, for every path and every cycle of links, where the course ends |
| Resolver.Opening.Finish | internal/native/native.c:427-430 | All stacked descriptors are closed and the result is kept |
| Resolver.OpenComponents | internal/native/native.c:386-431 | Answers, limit errors included, exactly what the course of the resolution comes to; open descriptors afterwards are those before plus the result |
| Resolver.VerdictMeans | internal/native/native.c:386-431 | That verdict without a limit is the literal resolver's, its success the plain resolver's, and each limit error has its own necessary reason |
| Resolver.OpenedIsResolved | internal/native/native.c:386-431 | Success always agrees with the plain resolver; agreement fails exactly for an absolute path or a root link followed by more, unless the plain answer is not-found as well |
| Resolver.OpensWhatTheWalkFinds | internal/native/native.c:386-431 | An answer that is no limit is what the ordinary walk of the whole file system finds or fails with if the walk stays beneath the root, and the escape error if it does not; only an absolute path or a root link in front of more is not-found instead |
| Resolver.RootUnasked | internal/native/native.c:408-409 | Where the root's path cannot be had, every answer but the error that says so is the one under any root path |
| Executor.QueueKeeps | internal/native/native.c:888-905 | Appending a job keeps queue length, total and pool counts equal |
| Executor.TakeQueue | internal/native/native.c:707-713 | Starting the head keeps them equal |
| Executor.TakeActive | internal/native/native.c:710-713 | Starting a job keeps active the sum of the pools' actives |
| Executor.LeaveActive | internal/native/native.c:744-744 | So does finishing it |
| Executor.ChargeKeeps | internal/native/native.c:834-847 | Charging a job keeps directory credit the sum of what pools own |
| Executor.TakeOverKeeps | internal/native/native.c:922-922 | Taking a job's charge over moves it without changing the sum |
| Executor.GiveBackKeeps | internal/native/native.c:924-924 | Freeing a job gives back exactly what it holds |
| Executor.ReserveDirKeeps | internal/native/native.c:834-847 | Reserving keeps the books |
| Executor.ReleaseDirKeeps | internal/native/native.c:848-854 | Releasing keeps the books |
| Executor.BodyKeeps | internal/native/native.c:834-854 | Body credit keeps its books both ways |
| ExecutorRuns.NextGood | internal/native/native.c:693-924 | Every step of owner and workers keeps the executor's invariant |
| ExecutorRuns.RunGood | internal/native/native.c:693-924 | Every interleaving keeps it |
| ExecutorRuns.AccountingIsExact | internal/native/native.c:693-747 | In every reachable state queued and active are the true lengths and the sums of the pool counts, and jobs start in id order without a gap |
| ExecutorRuns.StartsBelowLimit | internal/native/native.c:707-713 | No job starts at or above the smallest worker limit, nor while stopping |
| ExecutorRuns.FreedPoolIsUnused | internal/native/native.c:800-832 | A pool is freed only when no queued job and no worker refers to it |
| ExecutorRuns.CreditIsConserved | internal/native/native.c:800-880 | Directory credit is the sum owned by pools, each the credit held by its jobs plus what was taken over; body credit is pool-owned plus pool-less |
| ExecutorRuns.AdmissionWithinLimit | internal/native/native.c:834-905 | From any reachable state, whatever step comes next: owned credit, the queue and the working threads grow only within the smallest live limit |
| ExecutorAnswers.SubmitExactly | internal/native/native.c:888-905 | Accepted exactly if no pool of that name is stopping and the queue is shorter than every capacity; then last in the queue under the next id, without credit; else nothing happens |
| ExecutorAnswers.StartExactly | internal/native/native.c:702-713 | A job starts exactly if one waits and fewer threads hold a pool than every worker limit; it is the one that waited longest |
| ExecutorAnswers.ReserveExactly | internal/native/native.c:834-847 | Granted exactly if the total owned stays within every pool's limit; then the pool owns so much more and nothing else changes |
| ExecutorAnswers.ReleaseExactly | internal/native/native.c:848-854 | The pool and the total go down by that amount exactly if the pool owns it; directory credit that was taken over always is owned |
| ExecutorAnswers.LooseExactly | internal/native/native.c:870-880 | The same for body credit that no pool owns |
| ExecutorAnswers.ChargeExactly | internal/native/native.c:834-847 | The running job holds, and its pool owns, so much more exactly if the total stays within every limit |
| ExecutorAnswers.TakeOverExactly | internal/native/native.c:922-922 | What the job holds passes to the owner; no total changes |
| ExecutorAnswers.FreeExactly | internal/native/native.c:924-924 | The job is gone and what it still held is taken off its pool and the total |
| ExecutorAnswers.ComeAndGoExactly | internal/native/native.c:702-780 | A new pool is first and owns nothing; a worker's last sections end its job and then its hold on the pool |
| ExecutorAnswers.PoolLeavesExactly | internal/native/native.c:800-832 | The named pool alone is marked, and in the end off the list with all it owned; the workers stop exactly with the last pool |
| ExecutorListing.OthersKeep | internal/native/native.c:693-924 | Whatever other threads do, a running job keeps its charge and its pool |
| ExecutorListing.Listing.AddName | internal/native/native.c:555-575 | A name is skipped, or stored and charged exactly if limit, count, credit and memory allow, else refused; in every case the job holds exactly what it reserved |
| ExecutorListing.Listing.List | internal/native/native.c:576-616 | Every exit leaves the job holding exactly what it reserved; success lists exactly the visible names at their exact cost; and with room for all, memory and no other thread it succeeds |
| ExecutorBudget.Smallest | internal/native/native.c:693-698 | The loop over pool limits finds their minimum |
| ExecutorBudget.Budget.SubmitJob | internal/native/native.c:888-905 | Accepts exactly when the pool is not stopping and the smallest capacity is not reached, with the next id |
| ExecutorBudget.Budget.WorkerSection | internal/native/native.c:705-713 | Starts the oldest job exactly when the start step is enabled |
| ExecutorBudget.Budget.ReserveCredit | internal/native/native.c:834-847 | Negative amounts are refused; others exactly when the smallest limit admits them, a refusal changing nothing |
| ExecutorDrive.Perform | internal/native/native.c:693-924 | Any step of owner or worker, performed on the fields, is the step of the state machine and keeps the invariant |
| ExecutorDrive.Drive | internal/native/native.c:693-924 | Any run on the fields ends with exact counters, jobs started in id order and conserved credit |
| NodeProofs.BeginWorkGood | c_abi/node/async_addon.c:279-302 | A new work takes its environment reference and pending count |
| NodeProofs.FinishGood | c_abi/node/async_addon.c:303-324 | Accepting or refusing a submission keeps the invariant |
| NodeProofs.CompleteGood | c_abi/node/async_addon.c:266-278 | The native completion keeps the invariant |
| NodeProofs.DeliverGood | c_abi/node/async_addon.c:202-265 | Delivery wraps or leaves each result and keeps the invariant |
| NodeProofs.EndFinalizeGood | c_abi/node/async_addon.c:174-201 | The work's finalizer keeps the invariant |
| NodeProofs.ReleaseGood | c_abi/node/async_addon.c:84-106 | Releasing a handle keeps the invariant |
| NodeProofs.FinalizeHandleGood | c_abi/node/async_addon.c:107-120 | The handle's finalizer keeps the invariant |
| NodeProofs.NextGood | c_abi/node/async_addon.c:31-501 | Every step of either thread keeps the adapter's invariant |
| NodeProofs.RunGood | c_abi/node/async_addon.c:31-501 | Every interleaving keeps it |
| NodeProofs.EnvironmentLifetime | c_abi/node/async_addon.c:31-55 | References and pending count equal their holders; the environment is freed exactly when nothing is left, and then nothing can happen to it |
| NodeProofs.HookRemovedOnce | c_abi/node/async_addon.c:43-55 | The cleanup hook has been removed exactly once if the environment is closing with nothing pending, and otherwise not at all |
| NodeProofs.OperationsReleasedOnce | c_abi/node/async_addon.c:84-106 | Each native operation is released at most once and never cancelled afterwards, and not while its work still holds it |
| NodeProofs.FinalizerReleases | c_abi/node/async_addon.c:174-201 | The finalizer of a submitted work does release its operation and spend every result left in its event |
| NodeProofs.ResultsSpentOnce | c_abi/node/async_addon.c:70-137 | Each result is wrapped or disposed at most once, never while still in an event, and a wrapped one is freed at most once |
| NodeFates.NextAccounted | c_abi/node/async_addon.c:31-501 | Every step keeps each accepted operation with its work or released, each issued result in an event or spent, each wrapped one in a handle or freed |
| NodeFates.OperationsReleasedExactly | c_abi/node/async_addon.c:174-201 | In every reachable state an operation has been released exactly once if it was accepted and its work is gone, otherwise not at all, and is never cancelled afterwards |
| NodeFates.ResultsSpentExactly | c_abi/node/async_addon.c:70-265 | A result has been wrapped or disposed of exactly once if a callback handed it over and no event carries it any more, otherwise not at all |
| NodeFates.WrappedFreedExactly | c_abi/node/async_addon.c:84-137 | A wrapped result has been freed exactly once if no handle points to it any more, otherwise not at all; all of them once the environment is freed |
| NodeAnswers.DeliverExactly | c_abi/node/async_addon.c:202-265 | In time and with code 0 an engine, or else a response, gets one new handle of its kind and nothing is disposed of, while a chunk is copied and released; with an error code, or late, no handle is made and every result is disposed of |
| NodeAnswers.StepPerforms | c_abi/node/async_addon.c:31-501 | Exactly which acts each step performs: cancels, releases, wraps, disposals and frees |
| NodeAnswers.WrappedExactly | c_abi/node/async_addon.c:202-265 | In every run a result is wrapped once if it was delivered with code 0 before closing, and then never disposed of; every other issued result that no event carries has been disposed of once |
| NodeAnswers.WorksExactly | c_abi/node/async_addon.c:174-324 | The life of a work: when it comes and goes, what its call and its callback make of it, and that its event is queued for delivery unless it is being finalized |
| NodeRuns.Perform | c_abi/node/async_addon.c:31-501 | Any step of either thread, performed on the fields, is the step of the state machine and keeps the invariant |
| NodeRuns.Drive | c_abi/node/async_addon.c:31-501 | Any run on the fields leaves every operation and result with exactly its one fate and the environment freed exactly when nothing is left |
| NodeAdapter.ReleaseAllClears | c_abi/node/async_addon.c:490-501 | The cleanup loop clears every listed handle and keeps the invariant |
| NodeAdapter.CleanupClears | c_abi/node/async_addon.c:490-501 | After the cleanup hook no listed handle holds a native object |
| NodeAdapter.Adapter.ReleaseNodeHandle | c_abi/node/async_addon.c:84-106 | Equals the handle release |
| NodeAdapter.Adapter.HandleFinalizer | c_abi/node/async_addon.c:107-120 | Equals the finalizer step |
| NodeAdapter.Adapter.WorkFinalizer | c_abi/node/async_addon.c:174-201 | Equals the finalizer step |
| NodeAdapter.Adapter.EnvCleanup | c_abi/node/async_addon.c:490-501 | Equals the cleanup over the handle list |
| Tickets.UpdateExactly | tls/mbedtls-4.2.0/library/ssl_ticket.c:61-133 | An update changes nothing while the active key is young or has no lifetime; else the other slot becomes active, with the new key exactly if nothing fails, and what each failure leaves behind |
| Tickets.ParseExactly | tls/mbedtls-4.2.0/library/ssl_ticket.c:338-432 | For every byte string: a session is loaded exactly if the length field is right, the text that is authentic under the key of that name has that length and loads as that session, and its age is within that key's lifetime; each refusal has its own exact reason |
| Tickets.OnlyTicketsLoad | tls/mbedtls-4.2.0/library/ssl_ticket.c:338-432 | If nothing is authentic but what was sealed, whatever loads is byte for byte the ticket of that session under one of the two keys |
| Tickets.WritesUnderFreshKey | tls/mbedtls-4.2.0/library/ssl_ticket.c:106-133 | After a successful update the active key has not outlived its lifetime |
| Tickets.UpdateKeeps | tls/mbedtls-4.2.0/library/ssl_ticket.c:106-133 | An update within the lifetime after a write keeps the key of that write |
| Tickets.RunKeeps | tls/mbedtls-4.2.0/library/ssl_ticket.c:106-133 | Any calls within the lifetime keep it |
| Tickets.SetupReady | tls/mbedtls-4.2.0/library/ssl_ticket.c:187-217 | Setup leaves two keys with distinct names, ready for use |
| Tickets.SetupExactly | tls/mbedtls-4.2.0/library/ssl_ticket.c:187-217 | Setup succeeds exactly if both keys can be made; the first failure ends it |
| Tickets.UpdateReady | tls/mbedtls-4.2.0/library/ssl_ticket.c:106-133 | An update keeps the pair ready and its active key safe for a whole lifetime |
| Tickets.RunReady | tls/mbedtls-4.2.0/library/ssl_ticket.c:106-133 | So does every run |
| Tickets.TicketsStayReadable | tls/mbedtls-4.2.0/library/ssl_ticket.c:267-421 | After any history, a ticket's key is found at every parse up to the lifetime after the write, whatever rotations happen between |
| Tickets.TicketParts | tls/mbedtls-4.2.0/library/ssl_ticket.c:219-232 | Name, nonce, length and sealed state are at their places and the length field reads back |
| Tickets.ParseInvertsWrite | tls/mbedtls-4.2.0/library/ssl_ticket.c:338-432 | Parsing a written ticket gives its session exactly while its age is within the lifetime, else the expiry error |
| Tickets.WrittenTicketsLoad | tls/mbedtls-4.2.0/library/ssl_ticket.c:233-432 | Write, any rotations within the lifetime, then parse: the session comes back |
| Tickets.FillIn | tls/mbedtls-4.2.0/library/ssl_ticket.c:278-309 | Outcome exactly as the room, the state and the ciphertext decide; on success the buffer holds exactly the ticket |
| Tickets.VerdictExactly | tls/mbedtls-4.2.0/library/ssl_ticket.c:257-305 | For every outcome of a write the condition under which it and no other arises; success is an empty ticket exactly for states of more than 65535 bytes that fit in the clear |
| Tickets.OversizedStateIsLost | tls/mbedtls-4.2.0/library/ssl_ticket.c:282-287 | A concrete state of 65536 bytes whose write succeeds with an empty ticket |
| Tickets.Context.GenerateKey | tls/mbedtls-4.2.0/library/ssl_ticket.c:61-100 | Slot and result after success and after each failure |
| Tickets.Context.SetUp | tls/mbedtls-4.2.0/library/ssl_ticket.c:187-217 | Equals the setup that SetupReady is about |
| Tickets.Context.UpdateKeys | tls/mbedtls-4.2.0/library/ssl_ticket.c:106-133 | Equals the update |
| Tickets.Context.SelectKey | tls/mbedtls-4.2.0/library/ssl_ticket.c:320-333 | The loop finds the first slot of that name |
| Tickets.Context.Write | tls/mbedtls-4.2.0/library/ssl_ticket.c:233-315 | Keys and buffer after every path, and for each outcome, the empty ticket included, the exact condition under which it arises |
| Tickets.Context.ParseTicket | tls/mbedtls-4.2.0/library/ssl_ticket.c:338-432 | Keys and verdict for every byte string, short ones and failed updates included, are those that UpdateExactly and ParseExactly are about |
| Cache.ExpiryExactly | tls/mbedtls-4.2.0/library/ssl_cache.c:48-52 | For every age: an entry counts as expired exactly when its age modulo 2^32 is over the timeout and below 2^31 |
| Cache.ExpiryRightExactly | tls/mbedtls-4.2.0/library/ssl_cache.c:48-52 | Exactly when that verdict is right, for all ages; below 2^31 seconds always |
| Cache.ExpiryWraps | tls/mbedtls-4.2.0/library/ssl_cache.c:48-52 | A concrete entry 2^31 seconds old that does not expire |
| Cache.FirstExpiredIs | tls/mbedtls-4.2.0/library/ssl_cache.c:168-172 | The search finds the first expired entry and no other |
| Cache.OldestIs | tls/mbedtls-4.2.0/library/ssl_cache.c:174-177 | The search finds the first entry of the smallest timestamp |
| Cache.VictimIsOldestExactly | tls/mbedtls-4.2.0/library/ssl_cache.c:167-179 | The search that takes 0 for "none seen" finds the oldest entry exactly when no entry but the last has time 0 |
| Cache.ZeroStampIsPassedOver | tls/mbedtls-4.2.0/library/ssl_cache.c:167-179 | A concrete chain, with times 0 and 5, where the search finds the newer one |
| CacheStore.Store.FindEntry | tls/mbedtls-4.2.0/library/ssl_cache.c:36-70 | The loop over the chain ends at the first unexpired entry of that id |
| CacheStore.Store.Get | tls/mbedtls-4.2.0/library/ssl_cache.c:73-110 | Found, not found or unloadable |
| CacheStore.Store.FindExpired | tls/mbedtls-4.2.0/library/ssl_cache.c:167-179 | The loop ends at the first expired entry, or has found the one taken for the oldest |
| CacheStore.Store.Append | tls/mbedtls-4.2.0/library/ssl_cache.c:190-198 | A node linked behind the last one appends its entry |
| CacheStore.Store.PickSlot | tls/mbedtls-4.2.0/library/ssl_cache.c:129-243 | The slot by same id, expiry, free place, then age, blanked and stamped in place, or none |
| CacheStore.Store.Set | tls/mbedtls-4.2.0/library/ssl_cache.c:245-318 | Chain and return code after every path, failed saves included, with every node overwritten or appended in place |
| CacheStore.Store.Unlink | tls/mbedtls-4.2.0/library/ssl_cache.c:343-352 | Unlinking a node takes out its entry and leaves the rest in order |
| CacheStore.Store.Remove | tls/mbedtls-4.2.0/library/ssl_cache.c:320-367 | The entry that a get would find is gone, the others keep their order |
| CacheStore.Drive | tls/mbedtls-4.2.0/library/ssl_cache.c:36-367 | Any calls on a linked chain leave the contents that the map theorems are about |
| Cache.AgreeLater | tls/mbedtls-4.2.0/library/ssl_cache.c:36-70 | Time passing keeps the cache in agreement with the map |
| Cache.StepGood | tls/mbedtls-4.2.0/library/ssl_cache.c:245-367 | Every operation keeps distinct ids, the size bound and the agreement |
| Cache.RunGood | tls/mbedtls-4.2.0/library/ssl_cache.c:245-367 | So does every run |
| Cache.CacheAgreesWithMap | tls/mbedtls-4.2.0/library/ssl_cache.c:36-318 | After any run a get finds nothing or the last session set under that id, not removed and not expired; ids are distinct and the chain within its bound |
| Cache.AgreesExactly | tls/mbedtls-4.2.0/library/ssl_cache.c:36-318 | The cache agrees with the map after every run exactly when entries never expire or the run is shorter than 2^31 seconds |
| Cache.StaleIsFound | tls/mbedtls-4.2.0/library/ssl_cache.c:48-52 | A session set 2^31 seconds ago is handed out, whatever the timeout |
| Cache.SetExactly | tls/mbedtls-4.2.0/library/ssl_cache.c:129-318 | A set succeeds exactly if the id has a place and at most 32 bytes and the session can be saved; one entry changes and no other; without a place nothing does |
| Cache.GetExactly | tls/mbedtls-4.2.0/library/ssl_cache.c:36-110 | A get finds the first unexpired entry of that id, exactly if there is one |
| Cache.OnlyTheOldestIsEvicted | tls/mbedtls-4.2.0/library/ssl_cache.c:129-243 | A live entry under another id survives a set unless the cache is full, nothing is expired, and it is an oldest one |
| Cache.RemoveKeepsOthers | tls/mbedtls-4.2.0/library/ssl_cache.c:335-357 | A removal leaves entries of other ids |
| Cache.RemoveForgets | tls/mbedtls-4.2.0/library/ssl_cache.c:335-357 | After a removal the id is not found |
| Cache.SetThenGet | tls/mbedtls-4.2.0/library/ssl_cache.c:245-318 | After a successful set the id gives that session |
| Fifo.Append | tls/tls_bridge.c:392-393 | Bytes are added after the buffered ones |
| Fifo.Shift | tls/tls_bridge.c:262-264 | Bytes are taken off the front and the rest moves up in place |
| Fifo.Connection.constructor | tls/tls_bridge.c:241-266 | Both buffers start empty |
| Fifo.Connection.InSpace | tls/tls_bridge.c:397-402 | Exactly the feeds of at most this length are accepted |
| Fifo.Connection.Feed | tls/tls_bridge.c:382-395 | All or nothing: overflow exactly when the data exceeds the space, and then no byte changes |
| Fifo.Connection.Receive | tls/tls_bridge.c:257-266 | The engine gets the next bytes of what was fed, and wants to read exactly when none are buffered |
| Fifo.Connection.Send | tls/tls_bridge.c:241-255 | The output takes a prefix, the whole unless it gets full, and wants to write exactly when full |
| Fifo.Connection.TakeOutput | tls/tls_bridge.c:404-415 | The socket side gets the next bytes of what was sent, none for a non-positive capacity |
| Fifo.Drive | tls/tls_bridge.c:241-415 | Over any calls in any order, received is a prefix of fed and taken a prefix of sent, at most a buffer behind |

## Left out

- Runtime, assumed: the host releases each handle it owns at most once and uses only handles it holds; the owner gives results only to operations it popped, at most one response or chunk each, and completes all of them before it returns. The owner loop itself is not part of this model.
- Runtime, memory: objects are maps from addresses and an address is never reused, so reuse of a freed address by the allocator is not modelled.
- Runtime, arguments: null pointers, structure sizes, header limits and copying of request bytes before and inside the calls appear only as the resulting byte count and a flag for a failed copy or allocation.
- Runtime, flags that decide nothing here: `cancelled`, the wake pipe, `block_size`, header and chunk contents.
- Runtime, waiting: a create call in state 3 or above waits; the wait is other threads' steps and the create step then runs with `waited` set. That waits end at all is not stated.
- Runtime, thread start: the owner's and notifier's first instructions before their first lock are not steps.
- BridgeBarrier.ReleaseBarrier: stated for each finite sequence of waits; nothing is said when the waits run out first.
- BridgeRuntime.Runtime.NewOp: asks that a read names its response, which the C callers set right after the call.
- Reader.Reader.Feed: asks that a fragment and the accumulator together fit in the address space and do not overlap, as the header demands.
- Resolver: the tree does not change during a resolution, names have no length limit, and the Windows branch is left out.
- Resolver.Opening.Run: the remaining path is a string value; the in-place moves inside the path buffer are not modelled.
- Executor, assumed: a pool releases no more directory credit than it took over from its jobs, and a pool-less body release gives back no more than was acquired that way.
- Executor: system calls of jobs, thread start failure, connection limits and the io_uring queue are left out; a job of a freed pool is not used again.
- ExecutorListing.Listing.List: directory reading is a given sequence of names with a possible fault at the end.
- Node adapter: Node-API calls, JavaScript values and failing wraps are left out; pieces of one callback on the JavaScript thread that take no lock between them are single steps; server handles behave as engine handles and are not told apart.
- Tickets: cryptography and session serialization are ideal functions with their inverse law; manual rotation, the mutex and builds without time are left out.
- Cache: builds without time are left out, where the first entry is moved to the end instead of the oldest being overwritten.
- TLS engine, handshake and error texts: left out.
- Synchronous wrappers over the asynchronous ABI: left out, since they would only add easy members.
