# zenoh-grpc: leases, handles, retries and ownership

A Dafny model of the client/server protocol of zenoh-grpc and proofs about it. The client
keeps a connection with a generation number, binds local publishers, subscribers, queryables
and queriers to remote handles, and sends commands through bounded drop-oldest queues drained
by workers that retry, redeclare, discard or complete them according to the status class. The
server keeps one handle counter over four tables, a query-id counter, the in-flight queries
and the time each client was last seen, and evicts clients whose lease has run out. The C and
C++ layers pass queries and buffers on to code that has to finish and free them.

| file | content |
|---|---|
| `Base.dfy` | status classes, identities, merging of adjacent repeats |
| `DropOldest.dfy` | the queue as one thread sees it |
| `Pipeline.dfy` | the queue with any number of producers and its worker, one atomic action per step |
| `Workers.dfy` | bindings, the book of active and stale queries, and the retry loop as an in-place program: what it does turn by turn, and that this is a run of `Pipeline` |
| `Connection.dfy` | channel, generation, failure reports, reconnect worker |
| `PluginState.dfy` | the server state and its handlers, each run alone |
| `Handlers.dfy` | the server with all critical sections of all handlers and background tasks interleaved |
| `Cluster.dfy` | that server with any number of client-side objects and foreign clients |
| `Leases.dfy` | touches, cleanups and sweeps over time |
| `QueryOwnership.dfy` | who owes a received query its Finish, through Rust, C and C++ |
| `Buffers.dfy` | which allocated buffers are whose in the C and C++ layers |

The main theorems about the protocol are about all runs of step systems, those about buffers
about all inputs and all paths of the code. The network is a free choice at every
attempt: applied or not, with any status consistent with the server state, or a
disconnect-class status. Counters are unbounded naturals except `pending` and `dropped`, which
wrap at 2^64 as in the code. Clocks, the outcomes of zenoh operations and of RPCs, and the
moments of close are parameters.

Where the code does not have a property one might expect of it, the model keeps the code and
the project proves when the property holds:

- `wait_empty` can return while a command of a completed push is still queued
  (`Pipeline.WaitEmptyMissesCompletedPush`); a zero means "empty" when no push is between its
  send and its increment (`Pipeline.WaitEmptyMeans`).
- An undeclare by somebody else is refused and yet removes the entry, because the removal
  comes before the owner check (`PluginState.ForeignUndeclare`); a refused undeclare changes
  nothing if and only if the handle is unknown (`PluginState.RefusedUndeclare`).
- A client evicted while one of its declares awaits zenoh leaves an entry that no sweep can
  reach (`Handlers.EvictionRace`), and one evicted while a background task is numbering a
  query leaves that query in flight (`Handlers.DrainRace`); the sweeper can reach everything
  throughout a run if and only if the run has no such insert or store
  (`Handlers.SweeperReachFromStart`).
- A C++ query that outlives its queryable still names it when it is finished or destroyed
  (`QueryOwnership.DestroyedTooLate`); nothing undeclared is used in a run if and only if every
  undeclare finds no C++ query with that owner and C calls name declared queryables
  (`QueryOwnership.SafeRun`).
- Text with an interior NUL makes the conversion to a C string panic (`Buffers.NulPanics`); the
  structures are filled exactly when there is none (`Buffers.CReplyEx.Fill`).
- The C++ constructor of a query takes the buffers of its C structure and leaves the pointers
  there, so that the structure must not be freed any more
  (`Buffers.TakenQueryMustNotBeFreed`), unless all six are null (`Buffers.CQueryEx.Take`).
- A buffer is freed as a vector without spare capacity; that is right exactly for the clones
  that all fills pass on (`Buffers.Heap.IntoCBytes`, `Buffers.SpareCapacityMustNotBeFreed`).

## Model

| member | source | states |
|---|---|---|
| `DropOldest.NewestOfNewest` | zenoh-grpc-client-sdk/zenoh-grpc-client-rs/src/queue.rs:49-71 | keeping the newest `capacity` items at every push is keeping the newest of everything pushed |
| `DropOldest.Queue.constructor` | zenoh-grpc-client-sdk/zenoh-grpc-client-rs/src/queue.rs:26-46 | empty, both counters zero, one sender and one receiver |
| `DropOldest.Queue.Push` | zenoh-grpc-client-sdk/zenoh-grpc-client-rs/src/queue.rs:49-71 | the retry loop ends after at most one Full, never returns the item, leaves the newest part, and moves both 64-bit counters by exactly the drop and the push |
| `DropOldest.Queue.TryRecv` | zenoh-grpc-client-sdk/zenoh-grpc-client-rs/src/queue.rs:89-91 | oldest item first; Empty or Disconnected only when nothing is left |
| `DropOldest.Queue.ProcessedOne` | zenoh-grpc-client-sdk/zenoh-grpc-client-rs/src/queue.rs:105-108 | `pending` goes down by one modulo 2^64 and nothing else changes |
| `DropOldest.PushAll` | zenoh-grpc-client-sdk/zenoh-grpc-client-rs/src/queue.rs:49-75 | after any burst the queue holds the newest items and `dropped` counted exactly the others |
| `Pipeline.StepInv` | zenoh-grpc-client-sdk/zenoh-grpc-client-rs/src/queue.rs:49-108 | every atomic action of any producer or of the worker keeps the whole invariant (contents, fates, counters, endpoints, progress, close) |
| `Pipeline.PendingPush` | zenoh-grpc-client-sdk/zenoh-grpc-client-rs/src/queue.rs:51-63 | through every half-done push, `pending` is queued + in hand + popped-not-subtracted − sent-not-added, modulo 2^64 |
| `Pipeline.PendingWork` | zenoh-grpc-client-sdk/zenoh-grpc-client-rs/src/queue.rs:84-108 | the same through every step of the worker, which calls `processed_one` once per dequeued command on every path |
| `Pipeline.InOrderAtLeastOnce` | zenoh-grpc-client-sdk/zenoh-grpc-client-rs/src/lib.rs:875-951 | in every reachable state each accepted command is queued, in hand, applied, or lost for a recorded reason; effects with adjacent repeats merged follow push order; repeats are at most the disconnect-class answers |
| `Pipeline.WaitEmptyMeans` | zenoh-grpc-client-sdk/zenoh-grpc-client-rs/src/queue.rs:77-81 | `pending` reads zero if and only if queued, in hand and popped balance the sends not yet added; with no half-done send, zero means empty and idle |
| `Pipeline.WaitEmptyMissesCompletedPush` | zenoh-grpc-client-sdk/zenoh-grpc-client-rs/src/queue.rs:51-54 | a reachable state in which `pending` is zero and a completed push is still queued |
| `Pipeline.PushProgress` | zenoh-grpc-client-sdk/zenoh-grpc-client-rs/src/queue.rs:10-71 | in every reachable state, also after the drain has dropped its receiver, a push never fails, because its own sender holds both ends; it sees Full at most once more than the sends others complete during it |
| `Pipeline.PushAlone` | zenoh-grpc-client-sdk/zenoh-grpc-client-rs/src/queue.rs:49-71 | every run of one thread's own actions after the start of a push has at most six of them, can go on until the push is over, and then leaves the contents and counters of the sequential queue |
| `Pipeline.DropOldestStream` | zenoh-grpc-client-sdk/zenoh-grpc-client-rs/src/lib.rs:623-641 | contents are the newest contiguous part of what was accepted; at the reported end of a stream, accepted = received in order + counted drops |
| `Pipeline.CloseDrains` | zenoh-grpc-client-sdk/zenoh-grpc-client-rs/src/lib.rs:644-647 | after the close the worker's steps are bounded by a decreasing measure, at most one attempt and one declare start, and nothing still queued ever takes effect |
| `Pipeline.StuckMeansDrained` | zenoh-grpc-client-sdk/zenoh-grpc-client-rs/src/lib.rs:491-503 | a worker without an enabled step has nothing in hand, and an empty queue unless it gave up its receiver |
| `Pipeline.DropsReceiver` | zenoh-grpc-client-sdk/zenoh-grpc-client-rs/src/queue.rs:18-24 | once the drain has dropped its receiver nothing is received or takes effect any more, and the channel is left with exactly the senders' receiving ends |
| `Pipeline.UnboundDeclares` | zenoh-grpc-client-sdk/zenoh-grpc-client-rs/src/lib.rs:869-906 | a publisher whose handle was taken declares again before its next attempt |
| `Bindings.RemoteBinding.EnsureRemoteHandle` | zenoh-grpc-client-sdk/zenoh-grpc-client-rs/src/lib.rs:838-860 | a bound handle is reused without a call, a granted one is bound with its generation, a failure binds nothing |
| `Bindings.RemoteBinding.InvalidateHandle` | zenoh-grpc-client-sdk/zenoh-grpc-client-rs/src/lib.rs:862-867 | clears the binding only if it is the reported handle |
| `Bindings.RemoteBinding.TakeHandle` | zenoh-grpc-client-sdk/zenoh-grpc-client-rs/src/lib.rs:869-871 | hands out the bound handle and leaves none |
| `Bindings.QueryBook.RememberQuery` | zenoh-grpc-client-sdk/zenoh-grpc-client-rs/src/lib.rs:1326-1331 | files an identity under its own query id |
| `Bindings.QueryBook.ForgetQuery` | zenoh-grpc-client-sdk/zenoh-grpc-client-rs/src/lib.rs:1333-1338 | removes that id and no other |
| `Bindings.QueryBook.MarkQueryStale` | zenoh-grpc-client-sdk/zenoh-grpc-client-rs/src/lib.rs:1313-1324 | the identity becomes stale and inactive, and is reported once only |
| `Bindings.QueryBook.QueryIdentityOf` | zenoh-grpc-client-sdk/zenoh-grpc-client-rs/src/lib.rs:1340-1346 | an active id yields the identity with that id; an unknown id yields none |
| `Workers.SendWorker.ServeNext` | zenoh-grpc-client-sdk/zenoh-grpc-client-rs/src/lib.rs:1488-1501 | takes the oldest command; one for a stale query is completed without a call and changes nothing else; any other is served turn by turn |
| `Workers.SendWorker.ServeNextRefines` | zenoh-grpc-client-sdk/zenoh-grpc-client-rs/src/lib.rs:1485-1583 | from a reachable `Pipeline` state that the fields agree with, this is a receive and then steps of the worker and closes only, to a reachable state that they agree with again, with exactly the calls, effects, disconnects and fate that the turns make |
| `Workers.NextRun` | zenoh-grpc-client-sdk/zenoh-grpc-client-rs/src/lib.rs:1488-1583 | the same on values: receiving and serving or skipping a command is a run of the step system |
| `Workers.ServedRun` | zenoh-grpc-client-sdk/zenoh-grpc-client-rs/src/lib.rs:879-948 | serving a command over any turns is a run of the worker and closes: declares, sends, effects on the command in hand, disconnects, fate, binding, stale marks and counter are those of the turns |
| `Workers.DecidedOnce` | zenoh-grpc-client-sdk/zenoh-grpc-client-rs/src/lib.rs:879-948 | if the command's fate was decided there is a first turn that decided it, and otherwise none has |
| `Workers.DecidedStays` | zenoh-grpc-client-sdk/zenoh-grpc-client-rs/src/lib.rs:879-948 | once decided, no further turn changes anything |
| `Workers.JudgementCases` | zenoh-grpc-client-sdk/zenoh-grpc-client-rs/src/lib.rs:295-304 | a command is repeated exactly after a disconnect, or by a publisher after a stale handle; it is dropped as stale exactly by a queryable; delivered exactly on Ok |
| `Workers.FoundFirst` | zenoh-grpc-client-sdk/zenoh-grpc-client-rs/src/lib.rs:823-836 | a wait ends with a channel exactly when some look has one, and then with that of the first such look |
| `Workers.ReactedMeans` | zenoh-grpc-client-sdk/zenoh-grpc-client-rs/src/lib.rs:931-941 | a lost connection is taken down unless a newer one is there; no other outcome touches it |
| `Workers.NextTurnIsNewer` | zenoh-grpc-client-sdk/zenoh-grpc-client-rs/src/lib.rs:393-462 | after a turn that lost its connection, over every run of the connection, a channel that the next turn finds has a larger generation |
| `Workers.SendWorker.Serve` | zenoh-grpc-client-sdk/zenoh-grpc-client-rs/src/lib.rs:879-948 | over any sequence of turns the loop ends exactly when a turn decides the fate, with one `processed_one` then and none before; closed flag, handle, connection and query book are what the turns up to that one make them |
| `Workers.SendWorker.ServeTurn` | zenoh-grpc-client-sdk/zenoh-grpc-client-rs/src/lib.rs:880-947 | one turn leaves the loop if and only if it decides the fate: closed before or during the wait, declare refused, or command answered; the new state in each case; a channel whose call was lost is taken down |
| `Workers.SendWorker.WaitForConnectionOrClosed` | zenoh-grpc-client-sdk/zenoh-grpc-client-rs/src/lib.rs:823-836 | returns the first channel found with its generation, or none exactly when the wait ends with the close |
| `Workers.SendWorker.EnsureHandle` | zenoh-grpc-client-sdk/zenoh-grpc-client-rs/src/lib.rs:891-906 | goes on exactly with a bound or newly granted handle, takes another turn exactly after a disconnect, gives the command up exactly after any other failure; after a disconnect the channel is down unless the others have moved on to another generation, and otherwise the connection is as they left it |
| `Workers.SendWorker.Attempt` | zenoh-grpc-client-sdk/zenoh-grpc-client-rs/src/lib.rs:1558-1579 | another turn exactly after a disconnect or, for a publisher, a stale handle, which is then unbound; after a disconnect, and only then, the channel is down unless the others have moved on; the query book follows the fate |
| `Connection.ConnectionState.CurrentConnection` | zenoh-grpc-client-sdk/zenoh-grpc-client-rs/src/lib.rs:393-396 | returns the channel with the one generation whose failure report takes it down; without a channel no report has any effect |
| `Connection.ConnectionState.SetConnected` | zenoh-grpc-client-sdk/zenoh-grpc-client-rs/src/lib.rs:410-420 | a new channel under the next generation |
| `Connection.ConnectionState.MarkDisconnected` | zenoh-grpc-client-sdk/zenoh-grpc-client-rs/src/lib.rs:422-430 | drops the channel only for its own generation |
| `Connection.Generations` | zenoh-grpc-client-sdk/zenoh-grpc-client-rs/src/lib.rs:393-462 | over every run the generation is disconnects + (1 if connected); generations are torn down in turn, once each; older reports do nothing |
| `Connection.ReportHitsItsChannel` | zenoh-grpc-client-sdk/zenoh-grpc-client-rs/src/lib.rs:422-430 | a connection read at one moment and reported at any later one: the report takes down nothing or the very channel that was read |
| `Connection.ReconnectedIsNewer` | zenoh-grpc-client-sdk/zenoh-grpc-client-rs/src/lib.rs:410-430 | a connection read, and reported after any run: every channel there is from then on has a larger generation |
| `Connection.WorkerReconnects` | zenoh-grpc-client-sdk/zenoh-grpc-client-rs/src/lib.rs:432-462 | in every reachable state without a channel the worker goes on to connect, again after each failure; the channel an attempt yields is the one installed, under the next generation; with a channel it does nothing |
| `PluginState.AtomicHandlersReachable` | zenoh-plugin-grpc/src/lib.rs:494-521 | for every sequence of whole handlers: handles unique over the four tables, every owner live |
| `PluginState.EntryOrigin` | zenoh-plugin-grpc/src/lib.rs:513-519 | an entry after a request was there before, unchanged, or was made by this declare under the new handle for its caller |
| `PluginState.EntriesAfter` | zenoh-plugin-grpc/src/lib.rs:494-580 | each table entry after each request: a successful declare adds exactly its own under the next handle, an undeclare of it or a cleanup of its owner takes it, and all others stay |
| `PluginState.QueriesAfter` | zenoh-plugin-grpc/src/lib.rs:753-869 | each in-flight query after each request: it enters with the next id, and ends exactly by a finish of its owner with its handle, an accepted undeclare of its queryable, or a cleanup of its owner |
| `PluginState.AnswerExactly` | zenoh-plugin-grpc/src/lib.rs:523-846 | the code of each request: Ok exactly on an own live handle or query when zenoh succeeds, NotFound exactly on an unknown one, PermissionDenied exactly on another's; never a disconnect-class code |
| `PluginState.RefusalChangesNothing` | zenoh-plugin-grpc/src/lib.rs:753-846 | a put, delete, get, events, reply or finish changes more than the lease if and only if it is a finish that succeeds, and that takes exactly its query, which was the caller's under that handle |
| `PluginState.RefusedUndeclare` | zenoh-plugin-grpc/src/lib.rs:564-580 | a refused undeclare changes nothing more than the lease if and only if the handle is unknown |
| `PluginState.ForeignUndeclare` | zenoh-plugin-grpc/src/lib.rs:570-577 | a reachable state in which another client's undeclare is answered PermissionDenied and removes the owner's publisher |
| `PluginState.State.constructor` | zenoh-plugin-grpc/src/lib.rs:161-174 | both counters start at 1, everything else empty |
| `PluginState.State.AllocHandle` | zenoh-plugin-grpc/src/lib.rs:176-178 | hands out the counter and advances it |
| `PluginState.State.Touch` | zenoh-plugin-grpc/src/lib.rs:184-189 | sets the caller's last-seen time and nothing else |
| `PluginState.State.DeclareEntry` | zenoh-plugin-grpc/src/lib.rs:494-521 | the whole new state, including the handle used up when zenoh fails |
| `PluginState.State.UseEntry` | zenoh-plugin-grpc/src/lib.rs:737-751 | NotFound, PermissionDenied, Internal or Ok, and no change but the lease |
| `PluginState.State.UndeclareEntry` | zenoh-plugin-grpc/src/lib.rs:848-869 | the entry goes before the owner is checked; a queryable's queries go only after |
| `PluginState.State.ReplyQuery` | zenoh-plugin-grpc/src/lib.rs:753-778 | accepted only from the owner with the right handle; the query stays in flight |
| `PluginState.State.Finish` | zenoh-plugin-grpc/src/lib.rs:828-846 | removes the query exactly when owner and handle match |
| `PluginState.State.QueryArrived` | zenoh-plugin-grpc/src/lib.rs:686-721 | a fresh id, stored with the owner and handle of the queryable, then announced |
| `PluginState.State.CollectStaleClients` | zenoh-plugin-grpc/src/lib.rs:191-202 | returns exactly the clients not seen for a whole lease |
| `PluginState.State.RemoveOwned` | zenoh-plugin-grpc/src/lib.rs:207-219 | the loop over a snapshot removes exactly the client's entries of one table |
| `PluginState.State.Cleanup` | zenoh-plugin-grpc/src/lib.rs:204-267 | undisturbed, everything of the client and nothing else is gone (entry by entry and query by query in `EntriesAfter` and `QueriesAfter`) |
| `Handlers.StepInv` | zenoh-plugin-grpc/src/lib.rs:494-869 | every critical section of every handler and task, in any interleaving, keeps the server invariant |
| `Handlers.HandlesUniqueAndFixed` | zenoh-plugin-grpc/src/lib.rs:176-178 | over all interleavings a handle is in one table at most, keeps its owner and arguments, and never returns once removed |
| `Handlers.CleanupSafe` | zenoh-plugin-grpc/src/lib.rs:204-267 | between snapshot and removal only entries of the cleaned client are at stake, and a finished cleanup has left none of those it saw, for good |
| `Handlers.CleanupSparesOthers` | zenoh-plugin-grpc/src/lib.rs:214-219 | any entry a cleanup step removes is owned by the client being cleaned |
| `Handlers.CleanupTakesAll` | zenoh-plugin-grpc/src/lib.rs:204-267 | every entry that the client owns when its table is scanned is gone for good when the cleanup is over, whatever runs in between |
| `Handlers.Provenance` | zenoh-plugin-grpc/src/lib.rs:683-723 | a reply or finish is accepted if and only if the query is in flight and the caller is the client and names the handle whose task received it |
| `Handlers.EntryChanges` | zenoh-plugin-grpc/src/lib.rs:494-580 | each entry after each section, in any interleaving: inserted exactly by the declare that allocated its handle, with its client and arguments; removed exactly by an undeclare of it or a cleanup's removal |
| `Handlers.QueryChanges` | zenoh-plugin-grpc/src/lib.rs:686-869 | each in-flight query after each section: enters exactly when its queryable's task stores it, does not change, and leaves exactly when a section ends it |
| `Handlers.QueriesLeaveOnly` | zenoh-plugin-grpc/src/lib.rs:262-266 | in every reachable state a query leaves if and only if its owner finishes it with its handle, a cleanup of its owner ends, or an undeclare of its queryable by its owner ends |
| `Handlers.LogExactly` | zenoh-plugin-grpc/src/lib.rs:696-721 | a task announces a query exactly if it is still in flight at that section, and nothing else |
| `Handlers.LiveChanges` | zenoh-plugin-grpc/src/lib.rs:184-206 | a client's lease after each section: set by touches and declares to their time, forgotten by the start of its cleanup, otherwise unchanged |
| `Handlers.EndedForGood` | zenoh-plugin-grpc/src/lib.rs:686-686 | a task that has ended takes no further query |
| `Handlers.FinishOnce` | zenoh-plugin-grpc/src/lib.rs:828-846 | after a successful finish, over every continuation, any reply or finish on that id is NotFound and changes no query |
| `Handlers.DeadForever` | zenoh-plugin-grpc/src/lib.rs:180-182 | a query id or handle that has gone never comes back |
| `Handlers.ReachStep` | zenoh-plugin-grpc/src/lib.rs:184-206 | one step takes an entry or an in-flight query out of the sweeper's reach exactly when it inserts an entry or stores a query for an evicted client that no cleanup will still find |
| `Handlers.SweeperReachFromStart` | zenoh-plugin-grpc/src/lib.rs:979-992 | the sweeper can reach every entry and every in-flight query throughout a run if and only if the run has no such insert or store |
| `Handlers.EvictionRace` | zenoh-plugin-grpc/src/lib.rs:499-519 | a reachable state with an entry out of reach |
| `Handlers.DrainRace` | zenoh-plugin-grpc/src/lib.rs:686-695 | a reachable state with an in-flight query of an evicted client out of reach |
| `Handlers.DeclareAlone` | zenoh-plugin-grpc/src/lib.rs:664-733 | every run of a declare handler's own sections has at most three after the touch, can go on until the handler is over, and then gives the state of the handler as one step |
| `Handlers.UndeclareAlone` | zenoh-plugin-grpc/src/lib.rs:848-869 | the same for an undeclare after its touch, at once if the handle is unknown |
| `Handlers.QueryAlone` | zenoh-plugin-grpc/src/lib.rs:686-721 | the same for a background task with one query, which then has announced the new id |
| `Handlers.CleanupAlone` | zenoh-plugin-grpc/src/lib.rs:204-267 | the same for a cleanup, through four scans and all removals in any order: it can always go on, and at its end exactly the client's entries and queries are gone, as `EntriesAfter` and `QueriesAfter` have it |
| `Handlers.CommandAlone` | zenoh-plugin-grpc/src/lib.rs:753-846 | the same for a reply or finish after its touch |
| `Cluster.ReceivedIdsIncrease` | zenoh-grpc-client-sdk/zenoh-grpc-client-rs/src/lib.rs:1382-1479 | the query ids an application receives from one queryable strictly increase over every run |
| `Cluster.EventsAccounted` | zenoh-grpc-client-sdk/zenoh-grpc-client-rs/src/lib.rs:1435-1454 | over every run each event read is in exactly one place: received in order, in the inbox, being pushed, popped by an overflow with at least 256 later events after it and older than the whole inbox, or cut off; with as many of each as the run has such steps |
| `Cluster.SubscriberSeesAll` | zenoh-plugin-grpc/src/lib.rs:737-751 | after a subscription on a live entry every event announced from then on can be read, whatever the rest of the world does |
| `Cluster.ReadableNext` | zenoh-grpc-client-sdk/zenoh-grpc-client-rs/src/lib.rs:1435-1476 | after an event is read and pushed exactly the later ones can be read next; after a break nothing |
| `Cluster.NoMisbinding` | zenoh-grpc-client-sdk/zenoh-grpc-client-rs/src/lib.rs:838-871 | an accepted request on an object's handle acts on that object's own declaration; no two objects share a handle; own requests are never PermissionDenied |
| `Cluster.BindingAfter` | zenoh-grpc-client-sdk/zenoh-grpc-client-rs/src/lib.rs:1269-1298 | an answered declare binds the handle granted to this very object; a stale report for the bound handle, or taking it, unbinds; nothing else changes the binding; a queryable goes on to subscribe with it |
| `Cluster.CreatedAs` | zenoh-grpc-client-sdk/zenoh-grpc-client-rs/src/lib.rs:838-856 | an object's kind, client and arguments are those it was created with |
| `Cluster.LateReportsAreHarmless` | zenoh-grpc-client-sdk/zenoh-grpc-client-rs/src/lib.rs:1289-1294 | a stale report, however late, never clears a binding whose entry still exists |
| `Cluster.StaleMarksAreSound` | zenoh-grpc-client-sdk/zenoh-grpc-client-rs/src/lib.rs:1309-1324 | a query marked stale is not in flight and never will be |
| `Cluster.DiscardsAreSound` | zenoh-grpc-client-sdk/zenoh-grpc-client-rs/src/lib.rs:1496-1499 | whenever the worker discards a command for a stale query, then and ever after a reply or finish on it, from anyone, is NotFound |
| `Cluster.ReportsFollowAnswers` | zenoh-grpc-client-sdk/zenoh-grpc-client-rs/src/lib.rs:1417-1432 | a handle counts as refused, a query as dead, exactly once a request or command has found it gone; a mark makes exactly its identity stale |
| `Cluster.CommandReaches` | zenoh-plugin-grpc/src/lib.rs:828-846 | a finish that is sent ends exactly its own query, a reply ends none |
| `Cluster.ActiveExactly` | zenoh-grpc-client-sdk/zenoh-grpc-client-rs/src/lib.rs:1326-1346 | a received query can be answered by its id exactly until its finish is acknowledged or it is marked stale, and then with the identity it was received with |
| `Cluster.WaitingAfter` | zenoh-grpc-client-sdk/zenoh-grpc-client-rs/src/lib.rs:1593-1621 | a command waits for the worker exactly once submitted, and can then be sent or, if stale, discarded |
| `Cluster.OwnCommand` | zenoh-plugin-grpc/src/lib.rs:753-846 | a command on a received query is Ok, or NotFound with the query gone for good |
| `Cluster.OwnLookup` | zenoh-plugin-grpc/src/lib.rs:737-751 | a request on an obtained handle is Ok on the own entry, or NotFound with the handle gone for good |
| `Leases.LastTouch` | zenoh-plugin-grpc/src/lib.rs:184-189 | the table holds the time of each client's last touch |
| `Leases.KeptAlive` | zenoh-plugin-grpc/src/lib.rs:191-202 | touches less than a lease apart: no sweep selects the client, in any interleaving |
| `Leases.SilentIsSelected` | zenoh-plugin-grpc/src/lib.rs:979-992 | a client silent from t on is selected in [t + lease, t + lease + interval) |
| `Leases.ForgottenIsGone` | zenoh-plugin-grpc/src/lib.rs:204-205 | a forgotten client is selected by no sweep before its next touch |
| `Leases.HandlersAreEvents` | zenoh-plugin-grpc/src/lib.rs:184-205 | every request but a cleanup touches its client at its time, a cleanup forgets it |
| `Leases.HeartbeatsSuffice` | zenoh-grpc-client-sdk/zenoh-grpc-client-rs/src/lib.rs:218-220 | heartbeats of the default period keep a client of a server with the default lease |
| `QueryOwnership.FinishedOnce` | zenoh-grpc-client-sdk/zenoh-grpc-client-rs/src/lib.rs:1967-1985 | finish followed by the drop at its end enqueues one Finish, and so does a bare drop |
| `QueryOwnership.StepKeeps` | zenoh-grpc-client-sdk/zenoh-grpc-c/src/lib.rs:698-722 | every operation of the three layers keeps "one Finish for each query gone, none for the others, each of those in one place" |
| `QueryOwnership.FinishExactlyOnce` | zenoh-grpc-client-sdk/zenoh-grpc-client-rs/src/lib.rs:1879-1985 | over every sequence of operations exactly one Finish has been enqueued for a query that is gone and none for one that is not |
| `QueryOwnership.OperationEffect` | zenoh-grpc-client-sdk/zenoh-grpc-c/src/lib.rs:698-722 | for each operation of the three layers which query it uses up and brings in: the one used up is gone with exactly one more Finish, the one brought in is held unfinished, every other stays where it is with no Finish |
| `QueryOwnership.UsedUpForGood` | zenoh-grpc-client-sdk/zenoh-grpc-client-rs/src/lib.rs:1967-1985 | after any run, a query finished, dropped, swept, replaced or finished by its C++ object has exactly one Finish ever after and is held nowhere |
| `QueryOwnership.NotOutlived` | zenoh-grpc-client-sdk/zenoh-grpc-cpp/include/zenoh_grpc/session.hpp:290-313 | after any run, destroying or assigning to a C++ object uses up the query it names |
| `QueryOwnership.NamesAfter` | zenoh-grpc-client-sdk/zenoh-grpc-cpp/include/zenoh_grpc/session.hpp:290-308 | what each C++ object names after each operation: a move hands it over and leaves nothing behind |
| `QueryOwnership.OneOwnerStep` | zenoh-grpc-client-sdk/zenoh-grpc-cpp/include/zenoh_grpc/session.hpp:290-311 | no two C++ objects come to name the same query, unless one is created for a query already named |
| `QueryOwnership.UsableAfter` | zenoh-grpc-client-sdk/zenoh-grpc-c/src/lib.rs:1622-1632 | the stage of a queryable after each operation |
| `QueryOwnership.UndeclareSweeps` | zenoh-grpc-client-sdk/zenoh-grpc-c/src/lib.rs:1622-1632 | over every sequence of operations, no query is left in a queryable that has been freed |
| `QueryOwnership.SafeStep` | zenoh-grpc-client-sdk/zenoh-grpc-cpp/include/zenoh_grpc/session.hpp:363-383 | C++ moves, finishes and destructions neither use an undeclared queryable nor leave a dangling owner; any other operation does exactly when its guard fails |
| `QueryOwnership.SafeRun` | zenoh-grpc-client-sdk/zenoh-grpc-c/src/lib.rs:1559-1632 | over every sequence of operations, no use after undeclare, no second undeclare and no dangling owner if and only if each operation met its guard |
| `QueryOwnership.DestroyedTooLate` | zenoh-grpc-client-sdk/zenoh-grpc-cpp/include/zenoh_grpc/session.hpp:313-383 | short runs that go wrong: a C++ query destroyed after the undeclare of its queryable, and two undeclares |
| `QueryOwnership.CQueryable.RecvQueryIntoMap` | zenoh-grpc-client-sdk/zenoh-grpc-c/src/lib.rs:708-714 | the query is filed; one already filed under the id is dropped, with its Finish |
| `QueryOwnership.CQueryable.Finish` | zenoh-grpc-client-sdk/zenoh-grpc-c/src/lib.rs:1559-1570 | 0 and one Finish exactly when the id was filed, −1 otherwise; the id is gone |
| `QueryOwnership.CQueryable.FinishAllActiveQueries` | zenoh-grpc-client-sdk/zenoh-grpc-c/src/lib.rs:698-706 | the loop empties the map and enqueues for each query exactly what it owed |
| `QueryOwnership.CppQueryObject.FinishNoexcept` | zenoh-grpc-client-sdk/zenoh-grpc-cpp/include/zenoh_grpc/session.hpp:377-383 | finishes what it owns if it is to, then owns nothing |
| `QueryOwnership.CppQueryObject.MoveFrom` | zenoh-grpc-client-sdk/zenoh-grpc-cpp/include/zenoh_grpc/session.hpp:291-308 | finishes the old query if it was to and otherwise leaves its queryable alone, takes over the new one, leaves the source without an owner |
| `QueryOwnership.CppQueryObject.Finish` | zenoh-grpc-client-sdk/zenoh-grpc-cpp/include/zenoh_grpc/session.hpp:363-375 | throws exactly without an owner or with the id gone, and then keeps its fields |
| `Buffers.HoldsInserted` | zenoh-grpc-client-sdk/zenoh-grpc-c/src/lib.rs:474-487 | a buffer allocated among others is separate from them and can be released at any place of any release order, ending with the original heap |
| `Buffers.Swapped` | zenoh-grpc-client-sdk/zenoh-grpc-c/src/lib.rs:1886-1935 | two groups of owned buffers can be freed in either order with the same result |
| `Buffers.FreedAgain` | zenoh-grpc-client-sdk/zenoh-grpc-c/src/lib.rs:1836-1847 | freed slots that keep their pointers can be freed again if and only if all were null |
| `Buffers.TakenPart` | zenoh-grpc-client-sdk/zenoh-grpc-cpp/include/zenoh_grpc/session.hpp:213-224 | whichever part of a structure is taken first, the rest can still be freed, with the same result |
| `Buffers.HandedOver` | zenoh-grpc-client-sdk/zenoh-grpc-c/src/lib.rs:1718-1725 | buffers handed to the caller survive the free of the rest, with their contents, and are then exactly what is left |
| `Buffers.Heap.IntoCString` | zenoh-grpc-client-sdk/zenoh-grpc-c/src/lib.rs:318-325 | null exactly for the empty text, a panic exactly on a NUL, otherwise a separate new string |
| `Buffers.Heap.IntoCBytes` | zenoh-grpc-client-sdk/zenoh-grpc-c/src/lib.rs:327-336 | null exactly for the empty vector; what is handed out may be freed if and only if the vector was empty or had no spare capacity |
| `Buffers.Heap.TakeBytes` | zenoh-grpc-client-sdk/zenoh-grpc-cpp/include/zenoh_grpc/session.hpp:125-132 | returns the contents and releases the buffer, also through its early return |
| `Buffers.CSourceInfo.Fill` | zenoh-grpc-client-sdk/zenoh-grpc-c/src/lib.rs:457-464 | one more separate string, and the flag and sequence of the source information |
| `Buffers.CSourceInfo.Take` | zenoh-grpc-client-sdk/zenoh-grpc-cpp/include/zenoh_grpc/session.hpp:141-150 | returns what was held, frees it once, leaves the structure cleared |
| `Buffers.CSampleEx.Fill` | zenoh-grpc-client-sdk/zenoh-grpc-c/src/lib.rs:474-487 | all buffers live and separate, freeing them restores the heap, and they read back as the sample; fails exactly on a NUL |
| `Buffers.CSampleEx.Free` | zenoh-grpc-client-sdk/zenoh-grpc-c/src/lib.rs:1886-1896 | every buffer is live when its turn comes; all are released and the structure is cleared |
| `Buffers.CSampleEx.Take` | zenoh-grpc-client-sdk/zenoh-grpc-cpp/include/zenoh_grpc/session.hpp:152-169 | returns the sample, releases each buffer once, leaves no pointer behind |
| `Buffers.CReplyError.Fill` | zenoh-grpc-client-sdk/zenoh-grpc-c/src/lib.rs:543-550 | both buffers separate, restorable, and reading back as the error |
| `Buffers.CReplyError.Take` | zenoh-grpc-client-sdk/zenoh-grpc-cpp/include/zenoh_grpc/session.hpp:202-211 | returns the error, releases both buffers once |
| `Buffers.CReplyEx.Fill` | zenoh-grpc-client-sdk/zenoh-grpc-c/src/lib.rs:535-553 | 0 exactly for a reply with a result; it reads back unchanged and owns exactly what was allocated |
| `Buffers.CReplyEx.Free` | zenoh-grpc-client-sdk/zenoh-grpc-c/src/lib.rs:1929-1935 | releases exactly what the structure owns and clears it |
| `Buffers.CReplyEx.SecondFree` | zenoh-grpc-client-sdk/zenoh-grpc-c/src/lib.rs:1929-1935 | freeing a cleared structure is allowed and releases nothing |
| `Buffers.CReplyEx.Take` | zenoh-grpc-client-sdk/zenoh-grpc-cpp/include/zenoh_grpc/session.hpp:213-224 | the C++ reply says what the structure held, and everything it owned is released once |
| `Buffers.CppReplyTells` | zenoh-grpc-client-sdk/zenoh-grpc-cpp/include/zenoh_grpc/session.hpp:213-224 | a C++ reply is ok exactly for a sample, carries exactly what was sent, and tells different replies apart |
| `Buffers.QuerierGetStream` | zenoh-grpc-client-sdk/zenoh-grpc-c/src/lib.rs:1741-1756 | a boxed stream exactly for a successful get |
| `Buffers.ReplyStreamRecv` | zenoh-grpc-client-sdk/zenoh-grpc-c/src/lib.rs:1768-1783 | 0 exactly with a stream, an out-pointer and a reply with a result; what it allocates is what the structure owns; -1 leaves nothing behind |
| `Buffers.ReplyStreamDrop` | zenoh-grpc-client-sdk/zenoh-grpc-c/src/lib.rs:1829-1833 | frees the boxed stream, and nothing for null |
| `Buffers.CppReplyStreamRecv` | zenoh-grpc-client-sdk/zenoh-grpc-cpp/include/zenoh_grpc/session.hpp:467-471 | round trip from the stream's next reply through C to C++ unchanged, with the heap otherwise as before on every path |
| `Buffers.ReceivesInOrder` | zenoh-grpc-client-sdk/zenoh-grpc-c/src/lib.rs:1778-1782 | n receives leave exactly the replies after the first n; the next is the one in turn, and none after the last |
| `Buffers.CppDrain` | zenoh-grpc-client-sdk/zenoh-grpc-cpp/include/zenoh_grpc/session.hpp:467-471 | a drained stream gives each boxed reply once and in order as it was sent, then an exception, and leaves nothing allocated |
| `Buffers.CReply.Free` | zenoh-grpc-client-sdk/zenoh-grpc-c/src/lib.rs:1869-1875 | releases exactly what the structure owns and clears it |
| `Buffers.QuerierGetWithOptions` | zenoh-grpc-client-sdk/zenoh-grpc-c/src/lib.rs:1673-1738 | on every path the boxed stream is gone and what is left allocated is exactly what the caller's structure owns; success exactly with a stream, a result and an out-pointer |
| `Buffers.CSubscriberEvent.Fill` | zenoh-grpc-client-sdk/zenoh-grpc-c/src/lib.rs:489-498 | 0 exactly for an event with a sample; it reads back unchanged and owns exactly what was allocated |
| `Buffers.CSubscriberEvent.Free` | zenoh-grpc-client-sdk/zenoh-grpc-c/src/lib.rs:1899-1904 | releases exactly what the structure owns and clears it |
| `Buffers.CSubscriberEvent.Take` | zenoh-grpc-client-sdk/zenoh-grpc-cpp/include/zenoh_grpc/session.hpp:185-192 | returns the sample held, if any, and releases everything once |
| `Buffers.CppRecvEvent` | zenoh-grpc-client-sdk/zenoh-grpc-cpp/include/zenoh_grpc/session.hpp:603-607 | round trip of an event to C++ unchanged, nothing left allocated |
| `Buffers.CSample.Fill` | zenoh-grpc-client-sdk/zenoh-grpc-c/src/lib.rs:466-472 | both buffers separate, restorable, with the key expression and payload |
| `Buffers.CSample.Free` | zenoh-grpc-client-sdk/zenoh-grpc-c/src/lib.rs:1850-1856 | releases exactly what the structure owns and clears it |
| `Buffers.CQuery.Fill` | zenoh-grpc-client-sdk/zenoh-grpc-c/src/lib.rs:525-533 | the three buffers separate, restorable, with the id, key expression, parameters and payload |
| `Buffers.CQuery.Free` | zenoh-grpc-client-sdk/zenoh-grpc-c/src/lib.rs:1859-1866 | releases exactly what the structure owns and clears it |
| `Buffers.CQueryEx.Fill` | zenoh-grpc-client-sdk/zenoh-grpc-c/src/lib.rs:500-523 | all six buffers separate, restorable, and reading back as the query |
| `Buffers.CQueryEx.Free` | zenoh-grpc-client-sdk/zenoh-grpc-c/src/lib.rs:1907-1917 | releases exactly what the structure owns and clears it |
| `Buffers.CQueryEx.Take` | zenoh-grpc-client-sdk/zenoh-grpc-cpp/include/zenoh_grpc/session.hpp:265-274 | returns the query and releases each buffer once; the pointers stay, so a later free is allowed if and only if all six were null |
| `Buffers.CQueryEx.Borrow` | zenoh-grpc-client-sdk/zenoh-grpc-cpp/include/zenoh_grpc/session.hpp:276-288 | the copy lent to C++ is the query held; nothing is released |
| `Buffers.CppQueryableRecv` | zenoh-grpc-client-sdk/zenoh-grpc-cpp/include/zenoh_grpc/session.hpp:672-676 | round trip of a query to C++ unchanged, nothing left allocated |
| `Buffers.QueryCallback` | zenoh-grpc-client-sdk/zenoh-grpc-c/src/lib.rs:1316-1334 | the query lent to a callback is the one received, and nothing is left allocated |
| `Buffers.TakenQueryMustNotBeFreed` | zenoh-grpc-client-sdk/zenoh-grpc-cpp/include/zenoh_grpc/session.hpp:265-274 | a query whose structure may not be freed after the C++ constructor took it |
| `Buffers.NulPanics` | zenoh-grpc-client-sdk/zenoh-grpc-c/src/lib.rs:318-325 | a reply on which the fill panics |
| `Buffers.SpareCapacityMustNotBeFreed` | zenoh-grpc-client-sdk/zenoh-grpc-c/src/lib.rs:327-336 | a vector whose buffer may not be freed with its length |

## Left out

- tonic transport, the tokio runtime, listeners and the zenoh session: their outcomes are parameters or free choices.
- Wake-ups through `Notify`: the waits test a condition and then create the future, and no permit is stored, so only safety and decreasing measures are stated, not that a waiter eventually runs.
- A server restart: counters start again at 1 and `binding.generation` is stored but never compared, so every cross-component result is for one server lifetime.
- Counter overflow of handles and query ids: fewer than 2^64 allocations are assumed.
- An RPC that takes effect after its outcome was reported: an attempt takes effect before its answer or never, except for declares, whose handler may run on after the answer was lost.
- Broadcast lag and gRPC stream buffering are arbitrary skips in `Cluster`; which events are skipped is not stated.
- The contents of published, queried and replied data on the server side, QoS and enum mapping, encodings, option defaults, endpoint and configuration parsing: one-branch facts.
- Client calls outside the workers (querier `get`, session `get` up to its reply stream, subscriber event queues): the same bindings and the same queue as those modelled.
- Polling with `try_recv` and `is_closed`: no draining is claimed for it.
- Callbacks racing with `zgrpc_queryable_undeclare`: the code gives no guarantee there.
- The non-blocking variants of the receive functions, and `borrow_sample` for event callbacks: the same fills and frees.
- Leaks by the caller: a fill overwrites a structure without freeing it, as in the code, so its contract speaks of what the fill itself allocates.
- A worker task killed in the middle of a command: its receiver is dropped only between commands.
- Allocation failure, and unwinding after a panic, which ends the process at the C boundary.
- Workers.SendWorker.EnsureHandle: another task that takes the handle between two turns (an undeclare) is a step of `Pipeline` and `Cluster` but not of a turn.
- Workers.SendWorker.WaitForConnectionOrClosed: the looks at the connection are finitely many and given, and a wait that finds no channel ends with the close, since a run of the model is finite.
- Leases.SilentIsSelected: sweeps are instantaneous and on time; a sweep that is late because it cleans up other clients is not bounded.
- Python bindings, bridge, examples, packaging and log output.
