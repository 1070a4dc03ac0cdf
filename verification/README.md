# YuniKorn history server: a verified model of its stores, work queue, event cache and query builder

The history server copies queues and applications from the YuniKorn scheduler into PostgreSQL and
serves them back. This project models the parts of it whose correctness rests on the interplay of several
functions, and proves what they promise for every input, every interleaving and every point of failure.

## What is modelled

- **Queue hierarchy store.** The queues table is a sequence of rows in insertion order with a unique
  (partition, queue_name) key. `uuid(n)` is the id the n-th inserted row receives; every statement is proved
  for all injective `uuid`, so for every way of generating fresh ids. A `budget` is the number of rows whose
  statements the database still accepts; the next one fails without effect, so "for all budgets" covers every
  point at which a call can break off. `StoreRuns` works on single statements, `QueueCalls` shows that each
  call is a run of them, and `Overlap` puts any number of calls in flight at once, each with its position and the
  ids it has looked up or been returned, and interleaves their statements.
- **Readers.** A SELECT may deliver its rows in any order (`Delivered`, `Descendants`). Trees are compared
  up to sibling order by mapping them to `Family`, whose children are a multiset. The recursive query of
  GetQueue is read as the iteration described for WITH RECURSIVE in section 7.8 of the PostgreSQL manual.
- **Sync and retries.** `Convergence` interleaves the statements of the queue job and the application job,
  each restarted from its first row whenever a statement fails or a lookup finds nothing. The conflict update
  of applications is a map override, because COALESCE keeps the stored value where the new one is NULL.
- **Work queue.** A step relation over any number of Add calls, one Run, Shutdown and the retrying
  goroutines. Timers and contexts fire nondeterministically.
- **Event cache.** The handler runs on a heap of mutable application objects and is proved equal to a
  per-application replay of the events.
- **Query builder.** The builder works on character strings. A reader for the whole query text gives the text that
  is sent a meaning, so the compiled filters can be compared with the filter predicate.

`Repository.PostgresRepository`, `WorkQueue.Queue`, `EventHandler.Service` and `AppQuery.QueryBuilder` are
classes with the source's fields and loops; each method is proved against the function or step that the
theorems are about.

## Where a promise fails

- AddQueues assigns to its own `parentId`, so a resolved parent is given to every later top-level queue.
  `QueueWriters.ParentSticksExactly` says for exactly which calls every queue still ends up under the queue it
  names; `QueueWriters.ParentSticksExample` is a call where it does not.
- For the same reason AddQueues can put a queue under a parent of another partition
  (`QueueWriters.PartitionsMixExample`); `QueueWriters.AddKeepsPartitionsExactly` says for exactly which calls it
  does not.
- A queue whose name is empty cannot be named as a parent, so the two writers differ under it
  (`QueueWriters.NamelessParentDiffers`); they agree exactly when every queue with children has a name
  (`QueueWriters.TwoWritersAgreeExactly`).
- Read completeness needs every parent to be in the partition that is read; `QueueReaders.ReadsEachRowOnceExactly`
  is an equivalence.
- DeleteQueues keeps ancestors live exactly when each queue's live children come before it
  (`QueueCalls.DeleteKeepsAliveExactly`).
- A DeleteQueues that overlaps with an UpsertQueues or AddQueues can leave a live queue under a deleted one
  (`Overlap.OverlapOrphansQueue`). `Overlap.OverlapKeepsAliveExactly` is the exact condition on the interleaving;
  keeping the two kinds of call apart is enough (`Overlap.OverlapKeepsAncestorsLive`).
- Upserting a flattened hierarchy fails exactly when a queue that its children name is stored as deleted, or a root
  has no partition (`Sync.UpsertSucceedsExactly`), because nothing clears `deleted_at`.
- A group name with a quote changes the meaning of the compiled list
  (`SqlBuilder.QuotedListReadsBackExactly` is an equivalence).
- Closing the signal channel while an Add is past its started check and has not completed its send can bring the
  process down, whether or not the Add has appended its item yet (`WorkQueue.CrashExample`);
  `WorkQueue.ShutdownCrashesExactly` and `WorkQueue.OutOfDangerExactly` are equivalences over all runs.
- `maxRetries` is only logged. The delay stays within `maxBackoff` exactly when `maxBackoff` is the initial delay
  times a power of two (`Backoff.MaximumHoldsExactly`), which the default delay is not
  (`Backoff.DefaultDelayPassesMaximum`); the bound that always holds is in `Backoff.DelayBounds`.
- The comment on Conditionp shows the placeholder in quotes; the code writes it without.

## Model

| member | source | states |
|---|---|---|
| UpsertTable.ReflectsPut | internal/database/repository/application.go:61-74 | if every column ever set holds the last value set for its key, it still does after one more upsert |
| UpsertTable.ReplayStep | internal/workqueue/workqueue.go:197-221 | re-executing an upsert an earlier attempt got through inserts nothing and leaves the table different from the earlier one only in cells still to be rewritten |
| StoreRuns.RunExtends | internal/database/repository/queue.go:42-53 | no statement removes or reorders rows, changes an id, key or parent link, or undoes a deletion; a conflict update never rewrites parent_id |
| StoreRuns.RunsKeepForestAndReferences | internal/database/repository/queue.go:54-162 | if each statement of a run carries the id of a stored row, every parent_id names a strictly earlier row and every application's queue_id is the id of the row with its partition and queue name, deleted or not |
| StoreRuns.LinksAreAcyclic | internal/database/repository/queue.go:103-157 | following parent links strictly lowers the insertion rank, so no path returns to its start |
| StoreRuns.ExecKeepsPartitionsExactly | internal/database/repository/queue.go:147-155 | a statement keeps parent and child in one partition iff a row it inserts has its parent's partition |
| StoreRuns.RunsKeepPartitions | internal/database/repository/queue.go:147-155 | parent and child share a partition in every table reached by such statements |
| StoreRuns.ExecKeepsAliveExactly | internal/database/repository/queue.go:351-396 | a statement leaves no live queue under a deleted one iff a row it inserts has a live parent and a row it deletes has no live child |
| StoreRuns.RunsKeepAliveExactly | internal/database/repository/queue.go:351-396 | no state of a run has a live queue under a deleted one iff every statement of it meets that condition |
| StoreRuns.NoLiveQueueBelowDeleted | internal/database/repository/queue.go:374-396 | if parents of live rows are live then everything below a deleted queue, at any depth, is deleted |
| QueueCalls.CallIsRun | internal/database/repository/queue.go:54-89 | each UpsertQueues, AddQueues, DeleteQueues or UpsertApplications call, wherever it stops, is a run of sound statements |
| QueueCalls.AddForestIsRun | internal/database/repository/queue.go:103-161 | AddQueues with a stored, live or same-partition parent inserts only under stored, live or same-partition parents |
| QueueCalls.DeleteIsPostOrderPrefix | internal/database/repository/queue.go:377-396 | DeleteQueues marks exactly the first `budget` ids of the post-order and fails iff there were more |
| QueueCalls.DeleteKeepsAliveExactly | internal/database/repository/queue.go:374-396 | DeleteQueues leaves no live queue under a deleted one, wherever it stops, iff the ids visited list each queue's live children before it |
| QueueCalls.CompleteIsChildrenFirst | internal/database/repository/queue.go:381-390 | complete stored subtrees meet that condition |
| QueueCalls.CallsKeepForestAndReferences | internal/database/repository/queue.go:91-162 | forest and referential integrity hold after any sequence of calls, partial failures included |
| QueueCalls.CallsKeepPartitions | internal/database/repository/queue.go:147-155 | parent and child share a partition after any sequence of calls, broken off or not, whose queues lie in the partition of the parent they are put under |
| QueueCalls.CallsKeepAncestorsLive | internal/database/repository/queue.go:351-396 | after any sequence of calls, broken off or not, no live queue lies below a deleted one, given complete subtrees to DeleteQueues and live explicit parents |
| Overlap.InterleavingIsRun | internal/database/repository/queue.go:54-162 | the statements of any number of calls in flight, interleaved in any way, are a run in which each carries the id of a stored row, however long ago it was looked up or returned |
| Overlap.OverlapKeepsForestAndReferences | internal/database/repository/queue.go:54-162 | forest and referential integrity hold in every interleaving, each call breaking off anywhere |
| Overlap.OverlapKeepsPartitions | internal/database/repository/queue.go:147-155 | parent and child share a partition in every interleaving of calls that each keep to one |
| Overlap.OverlapKeepsAncestorsLive | internal/database/repository/queue.go:351-396 | in every state of every interleaving no live queue lies below a deleted one, if DeleteQueues calls do not overlap with queue writers, though each kind may overlap with itself and with UpsertApplications |
| Overlap.OverlapKeepsAliveExactly | internal/database/repository/queue.go:351-396 | in general this holds iff every row is inserted under a parent live, and deleted with no child live, at that moment |
| Overlap.OverlapOrphansQueue | internal/database/repository/queue.go:54-62 | in every table with a live childless queue an UpsertQueues and a DeleteQueues that overlap can leave a live queue under a deleted one |
| Overlap.SoloIsCall | internal/database/repository/queue.go:54-162 | each call run alone, wherever it stops, is one of the interleavings |
| QueueWriters.InsertAllIsPrefix | internal/database/repository/queue.go:111-145 | inserting a list leaves exactly the rows before the first rejected one |
| QueueWriters.AddIsPreOrderInsertion | internal/database/repository/queue.go:91-162 | recursive AddQueues equals inserting the pre-order rows one after the other; on error the table gained exactly the prefix before the failing queue |
| QueueWriters.UpsertIsPreOrderInsertion | internal/database/repository/queue.go:54-88 | UpsertQueues of a flattened hierarchy of new keys inserts the same rows, each lookup finding the parent inserted before |
| QueueWriters.TwoWritersAgree | internal/yunikorn/sync.go:149-162 | AddQueues(nil, F) and UpsertQueues(flattenQueues(F)) have the same outcome for every budget and both succeed when it suffices |
| QueueWriters.TwoWritersAgreeUpToIds | internal/database/repository/queue.go:54-162 | with different generated ids the two writers add rows equal in all columns and order, linked to rows of the same rank |
| QueueWriters.TwoWritersAgreeExactly | internal/database/repository/queue.go:351-354 | with Parent fields that match the tree the two writers have the same outcome iff every queue with children has a name |
| QueueWriters.NamelessParentDiffers | internal/database/repository/queue.go:351-354 | a two-queue hierarchy under a nameless root whose child the two writers link differently |
| QueueWriters.ParentSticksExactly | internal/database/repository/queue.go:103-110 | AddQueues(nil, F) links every top-level queue to the queue it names iff no queue after one with a parent names another parent |
| QueueWriters.ParentSticksExample | internal/database/repository/queue.go:105-110 | a root queue listed after a queue with a parent is stored under that parent |
| QueueWriters.AddKeepsPartitionsExactly | internal/database/repository/queue.go:103-157 | a successful AddQueues keeps parent and child in one partition iff its queues have the explicit parent's partition or, without one, all queues from the first that names a parent on share its partition |
| QueueWriters.PartitionsMixExample | internal/database/repository/queue.go:105-110 | a root listed after a queue with a parent in another partition is stored under that parent |
| QueueReaders.ReadsEachRowOnceExactly | internal/database/repository/queue.go:254-263 | for any delivery order the forest holds each row exactly once iff no row's parent is missing from the result set |
| QueueReaders.ForestIsNested | internal/database/repository/queue.go:254-263 | roots are exactly the null-parent rows in order and every row is nested under the row its parent_id names |
| QueueReaders.ReadsPartitionOnce | internal/database/repository/queue.go:210-264 | GetQueuesPerPartition returns each row of the partition exactly once in every table where parent and child share a partition |
| QueueReaders.BreadthFirstIsDepthFirst | internal/database/repository/queue.go:270-288 | the recursive query reaches the same rows equally often as the depth-first tree |
| QueueReaders.DescendantCount | internal/database/repository/queue.go:281-287 | the query delivers, once each, exactly the stored rows below the starting row, and ends |
| QueueReaders.TreeIsStored | internal/database/repository/queue.go:364-372 | a tree built from any result set that holds all children of its rows is the stored tree up to sibling order |
| QueueReaders.GetQueueIsStored | internal/database/repository/queue.go:296-348 | GetQueue's tree is the stored tree of the starting row up to sibling order |
| QueueReaders.ReadersAgree | internal/database/repository/queue.go:268-349 | GetQueue's tree equals, up to sibling order, the subtree at that queue in GetQueuesPerPartition, for all delivery orders |
| QueueReaders.ReadForestIsComplete | internal/database/repository/queue.go:210-264 | what GetQueuesPerPartition returns is complete stored subtrees |
| QueueReaders.DeletesPartitionReadBefore | internal/database/repository/queue.go:374-396 | a successful DeleteQueues of what was read deletes that partition's rows and no others |
| RoundTrip.WrittenHierarchyReadsBack | internal/database/repository/queue.go:91-264 | after a successful AddQueues(nil, F) every partition reads back as before plus F's trees of that partition with the root's partition pushed down, up to sibling order and ids |
| Sync.CollectIs | internal/yunikorn/sync.go:111-132 | the fan-out yields the hierarchies in completion order iff no fetch failed |
| Sync.FlattenPermutation | internal/yunikorn/sync.go:134-134 | in whatever order hierarchies arrive the flattened list holds the same queues equally often |
| Sync.FlattenRootPartition | internal/yunikorn/sync.go:153-158 | every queue of a hierarchy gets its root's partition |
| Sync.ParentsFirst | internal/yunikorn/sync.go:149-162 | every queue's parent is listed before it |
| Sync.UpsertSucceedsExactly | internal/database/repository/queue.go:54-58 | UpsertQueues of a flattened hierarchy whose Parent fields match the tree succeeds iff roots have partitions and no queue that its children name is stored as deleted |
| Sync.AnyArrivalOrder | internal/yunikorn/sync.go:98-144 | for every completion order: same queues, parents first, and the upsert succeeds iff no stored parent is deleted |
| Sync.FlattenQueues | internal/yunikorn/sync.go:149-162 | the loop computes the pre-order list |
| Sync.FetchQueues | internal/yunikorn/sync.go:108-134 | an error iff some fetch failed, else the flattened hierarchies in completion order |
| Convergence.StepKeepsInv | internal/database/repository/application.go:76-108 | every statement, failure or restart of either job keeps both tables equal to sequential prefixes except in cells the current attempt is about to rewrite |
| Convergence.QueueJobConverges | internal/yunikorn/sync.go:135-138 | once the queue job succeeded the queues table is that of one uninterrupted UpsertQueues, which succeeds |
| Convergence.RetriesConverge | internal/yunikorn/sync.go:252-255 | once both jobs succeeded, for every interleaving and all restarts, both tables equal one UpsertQueues then one UpsertApplications, which succeed |
| Convergence.RetriesFinishExactly | internal/workqueue/workqueue.go:197-221 | after every interleaving and any failures both jobs can still be brought to success iff one UpsertQueues then one UpsertApplications would have succeeded from the start |
| Convergence.QueueAttempt | internal/database/repository/queue.go:54-88 | an attempt of the queue job ends as one UpsertQueues does or, wherever it breaks off, starts over at its first row |
| Convergence.AppAttempt | internal/database/repository/application.go:76-109 | an attempt of the application job ends as one UpsertApplications does or, wherever it breaks off, starts over at its first row |
| AppMerge.MergeIsFold | internal/database/repository/application.go:61-74 | every COALESCE column holds the last non-NULL value supplied for the application with that partition, queue name and id, every other column the first |
| AppMerge.UpsertStoresEach | internal/database/repository/application.go:61-61 | after a successful call each application has one row under its own partition, queue name and id, and the table gained as many rows as applications were not stored before |
| AppMerge.PrefixReplayIsHarmless | internal/database/repository/application.go:76-108 | replaying any prefix before the full list changes nothing |
| AppMerge.UpsertIsMerge | internal/database/repository/application.go:76-109 | UpsertApplications, wherever it stops, merges exactly the applications before the failing one, each under the id of its live queue |
| Repository.PostgresRepository.GetQueueID | internal/database/repository/queue.go:351-362 | the id of the live row with the key, null for the empty name, else an error |
| Repository.PostgresRepository.InsertQueue | internal/database/repository/queue.go:115-145 | appends a row with a fresh id unless the statement fails, the partition is empty or the key is taken |
| Repository.PostgresRepository.UpsertQueue | internal/database/repository/queue.go:59-86 | inserts, or on conflict overwrites the live columns only |
| Repository.PostgresRepository.UpsertQueues | internal/database/repository/queue.go:54-88 | the loop has the outcome of `UpsertAll` |
| Repository.PostgresRepository.AddQueues | internal/database/repository/queue.go:103-161 | the recursive loop has the outcome of `AddForest`, sticky parent included |
| Repository.PostgresRepository.DeleteQueues | internal/database/repository/queue.go:377-396 | the recursive loop has the outcome of `DeleteForest` |
| Repository.PostgresRepository.UpsertApplications | internal/database/repository/application.go:76-109 | the loop has the outcome of `UpsertApps` |
| Repository.GroupByParent | internal/database/repository/queue.go:254-258 | the loop yields the null-parent rows and the others grouped by parent id, in delivery order |
| Repository.SplitRoot | internal/database/repository/queue.go:333-340 | the loop yields the row of generation 0 and the others grouped by parent id |
| Repository.PostgresRepository.GetChildrenFromMap | internal/database/repository/queue.go:364-372 | builds the row's tree and terminates because insertion rank increases |
| Repository.PostgresRepository.GetQueuesPerPartition | internal/database/repository/queue.go:210-264 | returns the forest of the rows delivered, in whatever order |
| Repository.PostgresRepository.SelectGenerations | internal/database/repository/queue.go:269-288 | delivers the starting row in generation 0 and its descendants in later ones |
| Repository.PostgresRepository.GetQueue | internal/database/repository/queue.go:268-349 | an error iff no live queue has the name, else the tree of the rows delivered |
| Backoff.DelayIsDoubledUpToMaximum | internal/workqueue/workqueue.go:195-219 | after k >= 1 failures the delay is d * 2^min(k - 1, m), m least with d * 2^m >= maxBackoff |
| Backoff.DelayBounds | internal/workqueue/workqueue.go:210-214 | the delay never decreases, never passes max(d, 2 * maxBackoff - 1) and its doubling never overflows int64 |
| Backoff.MaximumHoldsExactly | internal/workqueue/workqueue.go:210-214 | the delay stays within maxBackoff iff maxBackoff is the initial delay times a power of two |
| Backoff.DefaultDelayPassesMaximum | internal/workqueue/workqueue.go:17-19 | the default initial delay of one second does not: its tenth delay is 512 seconds |
| WorkQueue.RunsKeepInv | internal/workqueue/workqueue.go:98-222 | token, conservation, retry and running-counter invariants hold in every interleaving |
| WorkQueue.StepKeepsCounted | internal/workqueue/workqueue.go:190-191 | `running` is the number of goroutines between their begin and end, after every step |
| WorkQueue.QueueMatchesSignals | internal/workqueue/workqueue.go:98-163 | while the channel is open the queue length is the number of adders blocked in their send plus one if Run received and has not popped, so the empty-queue branch is never taken |
| WorkQueue.NothingLostOrRepeated | internal/workqueue/workqueue.go:102-165 | dispatched jobs then the queue are all appended jobs in lock order, each is executed once, and its goroutine calls the job of its item |
| JobFlow.JobsAreThoseAdded | internal/workqueue/workqueue.go:98-107 | told by the steps alone: the k-th item holds the job the k-th appending call passed to Add, an admitted call appends once or has yet to, and the job executed is the one added |
| JobFlow.EveryJobCanSucceed | internal/workqueue/workqueue.go:143-221 | on every run, while the channel is open, each job appended so far can still be dispatched and brought to success |
| JobFlow.AttemptsAreRecorded | internal/workqueue/workqueue.go:197-221 | a job that fails f times and then succeeds has exactly these attempts and ends, for every f |
| JobFlow.EndingGivesUp | internal/workqueue/workqueue.go:136-137 | once Run has ended a job between attempts can be given up |
| JobFlow.ClosedChannelSignals | internal/workqueue/workqueue.go:157-162 | after a Shutdown the closed channel signals although nothing is queued |
| WorkQueue.JobsRetryUntilSuccess | internal/workqueue/workqueue.go:183-222 | attempts are failures and at most one final success, a job is given up only on cancellation, its delay is the backoff of its failures, and `running` counts the active jobs |
| WorkQueue.ShutdownCrashesExactly | internal/workqueue/workqueue.go:99-105 | on every run, closing the channel by Shutdown or by Run's end lets some continuation crash the process iff an Add is then past its started check and not done |
| WorkQueue.OutOfDangerExactly | internal/workqueue/workqueue.go:173-180 | on every run, no continuation can crash the process iff Run has been shut down and no Add is past its check |
| WorkQueue.CrashExample | internal/workqueue/workqueue.go:99-105 | a Shutdown that finds no send blocked, followed by the append and send of an Add past its check, crashes |
| WorkQueue.Queue.CheckStarted | internal/workqueue/workqueue.go:99-101 | the unlocked test is the Check step: the call may go on iff the step lets it |
| WorkQueue.Queue.Enqueue | internal/workqueue/workqueue.go:102-104 | the locked append is the Append step of a call past its check, also after a Shutdown |
| WorkQueue.Queue.Stop | internal/workqueue/workqueue.go:174-180 | Shutdown is the Shutdown step |
| WorkQueue.Queue.ExecuteWithRetry | internal/workqueue/workqueue.go:195-221 | waits the closed-form delays, retries exactly the failures and ends on the first success or cancellation |
| EventHandler.CacheEqualsReplay | internal/yunikorn/event_handler.go:75-236 | the cached application is its last loaded snapshot plus its own later allocations, requests and state changes in order, absent after removal, whatever other events occur |
| EventHandler.WritesAreExactly | internal/yunikorn/event_handler.go:183-224 | the database writes are exactly, in order, those of SET COMPLETED, SET FAILED and REMOVE REJECT events whose application was cached |
| EventHandler.WritesCarryCompleteLog | internal/yunikorn/event_handler.go:178-191 | each write carries the complete log since its load and a state equal to its last log entry |
| EventHandler.WritesInWords | internal/yunikorn/event_handler.go:183-224 | a position of a trace writes iff it is a SET APP_COMPLETED, SET APP_FAILED or REMOVE APP_REJECT of a cached application, with just that name and the event's time as state and last log entry |
| EventHandler.EventsInWords | internal/yunikorn/event_handler.go:75-236 | after any trace each change detail does to the application it names what the handler's cases say, state names spelled out, and nothing to any other |
| EventHandler.Service.Load | internal/yunikorn/event_handler.go:79-91 | a successful fetch replaces the entry by a fresh object, a failed one changes nothing |
| EventHandler.Service.AppendAllocation | internal/yunikorn/event_handler.go:92-111 | one allocation more for that application, every other cached application unchanged |
| EventHandler.Service.AppendRequest | internal/yunikorn/event_handler.go:112-135 | one request more for that application, every other cached application unchanged |
| EventHandler.Service.HandleAppAddEvent | internal/yunikorn/event_handler.go:75-141 | updates the cache as the replay does and keeps entries unaliased |
| EventHandler.Service.SetState | internal/yunikorn/event_handler.go:178-182 | appends the state to the log and sets it, every other cached application unchanged |
| EventHandler.Service.Forget | internal/yunikorn/event_handler.go:203-205 | deletes that entry and no other |
| EventHandler.Service.HandleAppSetEvent | internal/yunikorn/event_handler.go:145-197 | updates the cache as the replay does and stores completed and failed applications |
| EventHandler.Service.HandleAppRemoveEvent | internal/yunikorn/event_handler.go:199-236 | removes the entry, or records and stores a rejection |
| EventHandler.Service.HandleEvent | internal/yunikorn/event_handler.go:20-73 | dispatches by kind and change; other events change nothing |
| EventHandler.Service.HandleEvents | internal/yunikorn/event_handler.go:20-73 | after a whole trace the heap cache is the per-application replay and the writes are those of the trace |
| SqlBuilder.QuotedListReadsBackExactly | internal/util/util.go:20-32 | the quoted list means the list it was made from iff no member contains a quote |
| QueryText.QueryReadsBack | internal/database/sql/builder.go:96-116 | the whole query text, read back, says the table, the conditions in order, the ordering, the limit and the offset asked for, and nothing else |
| QueryText.PlaceholdersMatchArguments | internal/database/sql/builder.go:61-66 | the k-th placeholder in the query text is $k and there are as many arguments |
| AppQuery.AcceptsIsConjunction | internal/database/sql/builder.go:68-76 | the query text with its arguments accepts a row iff every condition asked for holds of it |
| AppQuery.QueueQueryMeans | internal/database/repository/application.go:142-152 | the query text with its arguments accepts a row iff queue, partition and every present filter match; it orders by submission time, has the limit and offset given, and numbers its placeholders in order |
| AppQuery.AllQueryMeans | internal/database/repository/application.go:31-51 | the unrestricted query text accepts a row iff every present filter matches, with the same ordering, limit and offset |
| AppQuery.CallsSayWhatTheyAsk | internal/database/sql/builder.go:30-116 | after SelectAll, whatever calls are made in whatever order, the text says their conditions in order and the last table, ordering, limit and offset asked for |
| AppQuery.ClauseOrderIsFixed | internal/database/sql/builder.go:30-116 | query text and arguments do not depend on the order in which calls for different clauses, raw and positional conditions included, are made |
| AppQuery.QueryBuilder.ApplyApplicationFilters | internal/database/repository/application.go:31-51 | adds the conditions of the present filters in order, then limit and offset |
| AppQuery.QueryQueue | internal/database/repository/application.go:142-152 | the text and arguments the calls on the builder object produce have the meaning of the queue query |
| AppQuery.QueryAll | internal/database/repository/application.go:112-118 | the text and arguments the calls on the builder object produce have the meaning of the unrestricted query |

## Left out

- REST client, HTTP routes, configuration, logging, migrations and the web interface: input and output around the modelled logic.
- `sync()` error aggregation: several goroutines assign one shared variable, so its result is not determined by their outcomes.
- UpsertPartitions, UpsertNodes, UpdateHistory and InsertNodeUtilizations: simpler loops of the same shape, or inserts that are not idempotent under retry.
- created_at and the value of deleted_at: deletion is a flag; timestamps do not influence any modelled decision.
- Column contents: JSON and text columns are opaque values; the eleven queue columns a conflict update overwrites are kept as one record because they are always overwritten together.
- In-place sharing of queue trees: flattenQueues and AddQueues write partitions into child structs and getChildrenFromMap assigns Children in place; the model passes values, so aliasing between the caller's tree and the result is not captured.
- A statement that takes effect although the client sees an error, such as a connection lost after commit, is not modelled; a failed statement has no effect.
- Shutdown is one atomic step, there is one Run per queue, and the int32 counter of running jobs is an unbounded integer.
- Initial delays of zero or less: the doubling is modelled with int64 wrap-around, but the delay formulas are stated for positive delays.
- parseApplicationFilters and the meaning of LIMIT, OFFSET and ORDER BY in PostgreSQL: the query meaning starts from ApplicationFilters; which rows the conditions select and which ordering, limit and offset are asked for is proved.
