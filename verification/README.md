# Prefect: transactions, results, retries and waiting, verified

A Dafny model of the parts of Prefect in which the order of steps decides the result, with proofs of
what those parts promise. `dafny verify dfyconfig.toml` checks all of it.

**Transactions** are the core. A `Transaction` is a mutable node with a state, a commit mode, hook
lists, a staged value, perhaps a lock, and the children that exited under it; a context variable
says which one is active. Two descriptions of it are proved equal:

- `Transactions.dfy` has the classes. `Transaction` updates its fields in place; `Context` holds what
  all transactions of one thread share (store, locks held, context variable, trace of hooks and
  writes). `RunBlock` executes a program: a block whose body stages, commits, rolls back, raises,
  opens nested blocks, and may swallow their exceptions.
- `TransactionModel.dfy` says on values what each method does. Every method of the classes ensures
  that the heap afterwards is what the function of the same name gives, whatever hooks, writes and
  lock releases fail. Which of them fail is decided by a function of everything that happened before.

The theorems are about the functions, and `TransactionPrograms.dfy` reads them off the objects:

| module | theorem |
|---|---|
| `TransactionOutcome` | the final state of every transaction of a straight program, as a function of its text and of the keys stored initially |
| `TransactionPaths` | the same node by node: which blocks around a transaction decide it |
| `TransactionTraces` | the exact trace of a straight program: which hooks and writes run, in which order |
| `TransactionFailures` | for every pattern of failures: what a failing hook or write does to the commit or rollback it happens in |
| `TransactionTolerance` | the active transaction is always restored; a program that takes no locks does the same under every lock manager, and without one |
| `TransactionStrict`, `TransactionStrictPrograms` | a lock manager that raises on releasing a lock that is not held: exactly which commits, exits and whole programs still do what they should |
| `TransactionKept`, `TransactionLocks` | exactly which locks stay held, also when records are found; and in general, whose locks can |
| `TransactionStore` | atomicity: the final store is the initial one overwritten by the committed transactions of the finished tree, for every program and every failure |
| `TransactionSingleWrite` | no transaction writes twice; it has written exactly its staged value if it committed, and otherwise nothing |
| `TransactionUndo` | rollback hooks run in exactly the reverse of the order in which commit hooks would have run |
| `TransactionContagion` | for every program: a rolled-back transaction takes everything around it along, except exactly what was staged again afterwards or committed before |
| `TransactionEvolution` | what is decided is final, and children are never lost: the lemma behind the negative half for whole programs |

A note on lock managers. Those of the repository raise when asked to release a lock that is not held
(`prefect/src/prefect/locking/memory.py:170-183`), and an EAGER child is released twice: at its own
exit and again when its parent commits. So theorems about states and locks ask that no release can
raise: the manager is tolerant, or the program takes no locks, with or without a manager. For a
manager that raises `TransactionStrictPrograms.StrictOutcome` settles the rest: a program ends as
expected if and only if no block expected to be COMMITTED directly contains an EAGER block that locks
and ends normally, and then it runs exactly as under a tolerant manager.

**Other components.** `Serializable` interleaves any number of holders running SERIALIZABLE
transactions, with acquire, existence check, write and release as separate steps. `ResultStores` is the
result store with its cache and its two layouts. `TaskEngine` and `RetryDelays` are the retry loop and
exponential backoff. `Waiters` is the two-lock protocol between the consumer of completion events and
those waiting for them; `AsCompleted` the generator that drains finished futures. `CachePolicies` is the
algebra of `+` and `-` on cache policies. `States` aggregates states and finds the exception in an
aggregate. `TaskWorker` admits task runs under a limit. `RefPaths` is the worklist of the settings
reference generator.

Where the source changes things in place the model does so too: classes for transactions, the result
store and the engine, loops for the policy constructors, the state counts and the worklist. Protocols
between threads are state machines whose steps are the atomic actions, and the theorems are about
every state of every run.

Where the source and its own words differ, the model follows the code: a comment in `__enter__` speaks of
a default of eager, and the default is LAZY (`prefect/src/prefect/transactions.py:182-184`).

## Model

| member | source | states |
|---|---|---|
| Transactions.Transaction.RunBlock | prefect/src/prefect/transactions.py:461-470 | running a whole program of nested blocks on the objects gives the stack, store, locks, trace and tree that the value-level account gives, for every program and every failure |
| Transactions.Transaction.Enter | prefect/src/prefect/transactions.py:176-207 | entry opens the transaction above the active one, or raises and changes nothing when the isolation level is unsupported |
| Transactions.Transaction.Inherit | prefect/src/prefect/transactions.py:181-189 | commit mode and isolation level come from the active transaction unless given, and are LAZY and READ_COMMITTED without one |
| Transactions.Transaction.Begin | prefect/src/prefect/transactions.py:238-252 | the lock is taken first; COMMITTED exactly when not overwriting and a record is stored under the key |
| Transactions.Transaction.Exit | prefect/src/prefect/transactions.py:209-236 | rollback on an exception, otherwise settle, then reset; if a release raises, the transaction stays active |
| Transactions.Transaction.Settle | prefect/src/prefect/transactions.py:220-234 | EAGER commits at its own exit; a root commits when LAZY and rolls back when OFF; anything else is left to the parent |
| Transactions.Transaction.Reset | prefect/src/prefect/transactions.py:261-274 | the parent receives the transaction as its last child, becomes active again, and is rolled back if the child was |
| Transactions.Transaction.AddChild | prefect/src/prefect/transactions.py:276-277 | appended as last child; the other children and all other fields unchanged |
| Transactions.Transaction.Commit | prefect/src/prefect/transactions.py:290-344 | a decided transaction only releases; otherwise the attempt is made and rolled back when it raises |
| Transactions.Transaction.Attempt | prefect/src/prefect/transactions.py:302-328 | children, hooks, write, state, release, in this order, stopping at what raises |
| Transactions.Transaction.CommitChildren | prefect/src/prefect/transactions.py:303-304 | children are committed first to last and their results ignored |
| Transactions.Transaction.Rollback | prefect/src/prefect/transactions.py:386-414 | hooks in reverse, then the state, then the children; a raising hook leaves the state and skips the children; the lock is released either way, but not by a decided transaction |
| Transactions.Transaction.RollbackChildren | prefect/src/prefect/transactions.py:396-397 | children are rolled back last to first until one raises |
| Transactions.Transaction.Stage | prefect/src/prefect/transactions.py:368-384 | replaces the value, appends the hooks and moves to STAGED from every state but COMMITTED |
| Transactions.Context.RunHooks | prefect/src/prefect/transactions.py:346-366 | hooks run in order up to the first that raises, each leaving its event on the trace |
| Transactions.Context.Persist | prefect/src/prefect/transactions.py:309-318 | a keyed, writing transaction stores its staged value, a record under the key recorded in it |
| Transactions.Context.ReleaseLock | prefect/src/prefect/transactions.py:321-327 | only a keyed SERIALIZABLE transaction releases, and only its own key |
| TransactionOutcome.OutcomeTheorem | prefect/src/prefect/transactions.py:209-236 | with nothing failing, no release that can raise, exceptions propagating, and records found only where they were stored initially: nothing stays open, the program raises as its text says, the tree is the block nesting in exit order, and every node has the state, the staged object, the hooks and the write read off the text (an escaping exception rolls back; EAGER commits; a block that found a record is COMMITTED, stages nothing and decides nothing below it; the rest take the decision of the nearest block around, or of the root; the last object staged counts, and the hooks of all stage calls in order) |
| TransactionPaths.CommittedExactly | prefect/src/prefect/transactions.py:220-234 | when nothing is found: a transaction of the finished tree is COMMITTED if and only if it has an EAGER ancestor or is EAGER itself, with no exception escaping from that one, or nothing raises and the root is not OFF; every other one is ROLLED_BACK |
| TransactionTraces.ProgramTrace | prefect/src/prefect/transactions.py:303-318 | under the same conditions the program runs exactly the hooks and writes read off its text, in that order: commits run children first to last, their own hooks in order and then the write, rollbacks their own hooks last to first and then the children last to first |
| TransactionTraces.CommitHooksOfCommitted | prefect/src/prefect/transactions.py:306-307 | the commit hooks that the program runs are, with repetitions, exactly those listed by the transactions of the finished tree that committed without having found a record |
| TransactionFailures.FailureStopsCommit | prefect/src/prefect/transactions.py:306-344 | for every pattern of failures: if a commit hook or the write of the transaction itself fails during its commit, it is not COMMITTED, commit returns false, nothing is written, and it is ROLLED_BACK if rollback hooks run |
| TransactionFailures.CommitUnlessFailure | prefect/src/prefect/transactions.py:302-336 | when no release can raise, an undecided transaction is committed, and commit returns true, if and only if none of its own commit hooks and not its write fails |
| TransactionFailures.CommittedRanAll | prefect/src/prefect/transactions.py:303-320 | a committed transaction has run, after its children, all its commit hooks in order and then its write, with success |
| TransactionFailures.RollbackUnlessHookFails | prefect/src/prefect/transactions.py:390-406 | a rollback takes effect if and only if none of its own rollback hooks fails; otherwise the transaction and its children stay as they are and nothing runs after the failing hook |
| TransactionFailures.DecidedIsFinal | prefect/src/prefect/transactions.py:290-300 | commit and rollback of a decided transaction change nothing about it, run nothing and return false; commit gives its lock back, rollback does not |
| TransactionTolerance.ActiveRestored | prefect/src/prefect/transactions.py:261-274 | whatever fails and whatever bodies swallow, when no release can raise: a body ends with just its own transaction added to those open before the block, and the block's exit removes it |
| TransactionTolerance.BlockIndependent | prefect/src/prefect/transactions.py:192-201 | a program whose blocks take no locks runs the same under every lock manager and without one |
| TransactionTolerance.RefusedWithoutManager | prefect/src/prefect/transactions.py:192-201 | a block that would lock is refused when there is no lock manager, changing nothing; when no release can raise, no other block leaves no transaction |
| TransactionOutcome.CommitDecides | prefect/src/prefect/transactions.py:290-304 | when nothing fails, commit commits every undecided transaction of the tree not below a decided one, and only those; the lock manager matters only if the tree has locks |
| TransactionOutcome.RollbackDecides | prefect/src/prefect/transactions.py:386-398 | when nothing fails, rollback does the same with ROLLED_BACK |
| TransactionStore.Atomicity | prefect/src/prefect/transactions.py:309-320 | for every program, store and pattern of failures, when no release can raise: under each key the final store holds the staged value of a committed writer of the tree, or, if no committed writer has that key, what it held before |
| TransactionStore.OnlyWritten | prefect/src/prefect/transactions.py:309-318 | under every lock manager, even when an exit loses its transaction: under each key the store holds a successfully written value, or what it held if there was none |
| TransactionSingleWrite.SingleWrite | prefect/src/prefect/transactions.py:290-344 | over a whole program no transaction's write succeeds twice, and at every node of the finished tree the writes are exactly the staged value if it committed, and none otherwise |
| TransactionSingleWrite.CommitOnce | prefect/src/prefect/transactions.py:302-336 | commit keeps that correspondence between states and writes in the whole tree, and nobody outside the tree writes |
| TransactionSingleWrite.RollbackOnce | prefect/src/prefect/transactions.py:386-398 | rollback keeps it and writes nothing |
| TransactionLocks.LocksReleased | prefect/src/prefect/transactions.py:407-414 | under the conditions of the outcome theorem, when nothing is found, no lock acquired by the program is still held at its end |
| TransactionKept.LocksKept | prefect/src/prefect/transactions.py:387-388 | under those conditions, with records found wherever they were stored and all locks different: the locks held at the end are those held before and exactly those that `Keeps` reads off the text: of a block that found its record, unless it ends normally and is EAGER or reached by a commit, and of a block that nothing decides |
| TransactionLocks.LeftHeld | prefect/src/prefect/transactions.py:290-328 | whatever fails and whatever bodies do, when no release can raise, a lock left held is that of a transaction that ended undecided or found itself committed |
| TransactionLocks.FoundBlockKeepsLock | prefect/src/prefect/transactions.py:291-300 | with direct calls of commit, under every lock manager: a SERIALIZABLE root block that finds its key stored and nests nothing keeps its lock if and only if it raises or is OFF, and did not call commit |
| TransactionUndo.RollbackUndoesCommit | prefect/src/prefect/transactions.py:391-397 | the rollback hooks run on a tree are the counterparts, in exact reverse, of the commit hooks that commit would run on it, decided subtrees skipped by both; under a lock manager that raises, for trees whose locks are held and none of which would be released twice |
| TransactionContagion.Contagion | prefect/src/prefect/transactions.py:272-274 | for every program, with stages and nested blocks in any order: a transaction with a child rolled back at its reset was rolled back at its own reset, and stayed so, if and only if it was not staged after the last such reset (without being rolled back again) and not committed before one; without direct calls of commit only what was found at begin is committed before |
| TransactionContagion.LateStageRevives | prefect/src/prefect/transactions.py:380-384 | the first exception is reachable for every inner block and value: a rolled-back parent that stages again is committed above its rolled-back child |
| TransactionStrictPrograms.StrictOutcome | prefect/src/prefect/transactions.py:290-304 | with a lock manager that raises and nothing else failing, for straight programs that find nothing and lock different keys: nothing stays open and every state is as expected if and only if no block expected to be COMMITTED directly contains an EAGER block that locks and from which no exception escapes |
| TransactionStrict.CommitStrict | prefect/src/prefect/transactions.py:302-344 | with such a manager an undecided transaction is committed by commit if and only if no child of it is decided, SERIALIZABLE and already released, and otherwise rolled back |
| TransactionStrict.ExitStrict | prefect/src/prefect/transactions.py:209-236 | with such a manager an exit raises before reset if and only if the body ended normally and an already released decided transaction is committed again |
| TransactionStrict.ReleaseBelowRaises | prefect/src/prefect/transactions.py:396-406 | a release that raises in a child makes rollback of the parent return false, although both are rolled back |
| TransactionStrict.EagerChildUndoesParent | prefect/src/prefect/transactions.py:220-234 | with such a manager a LAZY block around an EAGER SERIALIZABLE one is rolled back although nothing failed, below a committed child |
| TransactionStrict.ExitWithoutReset | prefect/src/prefect/transactions.py:228-236 | with such a manager every SERIALIZABLE LAZY or EAGER block that finds nothing stored, rolls itself back and ends normally raises on exit and stays the active transaction |
| TransactionPrograms.RunProgram | prefect/src/prefect/transactions.py:425-470 | the outcome, trace, lock, single-write, store and contagion theorems, read off the objects after a run on a fresh context, whenever releases disturb nothing: a tolerant manager, a program without locks, or a raising manager and a program that spoils nothing |
| TransactionPrograms.RunAnything | prefect/src/prefect/transactions.py:209-236 | what holds of every program, every failure and every lock manager: single writes, and a store explained by the successful writes; and when no release can raise, the active transaction restored and the store explained by the finished tree |
| Serializable.MutualExclusion | prefect/src/prefect/results.py:865-886 | in every interleaving at most one holder is in a transaction on a key |
| Serializable.ExactlyOnce | prefect/src/prefect/transactions.py:238-252 | in every interleaving each key is written once if it appeared during the run, and never otherwise; what was stored before stays |
| Serializable.LaterTransactionsFind | prefect/src/prefect/transactions.py:246-259 | every transaction that checks a key after it was written finds itself COMMITTED, and that value stays what a read gives |
| Serializable.RollbackFreesKey | prefect/src/prefect/transactions.py:386-414 | when a rolled-back holder has released, the key is free and unwritten, and any idle holder can acquire it and will find nothing |
| Serializable.AbandonedOnlyWhenStored | prefect/src/prefect/transactions.py:387-388 | a lock whose holder is no longer in a transaction on it belongs to a stored key |
| Serializable.CommittingWrites | prefect/src/prefect/transactions.py:220-234 | over every run: a transaction that found no record, was not asked for as OFF, ends normally and whose hooks succeed goes on to its write, can do so at any time, and when the write succeeds its key holds the value it staged last and the log has that entry |
| Serializable.RollingBackWritesNothing | prefect/src/prefect/transactions.py:215-231 | over every run: if it was OFF, or a hook failed, or it ended by an exception, its next move gives the lock back, its key is then unlocked and not stored, and the log has no entry of it |
| Serializable.WriteThenRelease | prefect/src/prefect/transactions.py:309-327 | after a write, successful or not, the holder's next move is to release, and that frees the lock |
| Serializable.FoundLeaves | prefect/src/prefect/transactions.py:387-388 | a transaction that found a record writes nothing, and gives its lock back at its end if and only if it ends normally and is not OFF |
| ResultStores.ResultStore.Write | prefect/src/prefect/results.py:699-724 | a write succeeds exactly when nothing fails, the file lies under the base path or the block is saved, and no one else has the lock; under a relative key the plain map then has the value and expiration that were asked for, and is unchanged when the write fails before storing anything |
| ResultStores.ResultStore.PersistResultRecord | prefect/src/prefect/results.py:750-816 | content first, metadata second, cache last, under the three keys derived from the recorded storage key; a failure in between leaves metadata and cache as they were |
| ResultStores.ResultStore.Read | prefect/src/prefect/results.py:558-626 | the cached record, or the stored one, which is then cached if the store caches; for a coherent store, what the plain map holds |
| ResultStores.ResultStore.Exists | prefect/src/prefect/results.py:483-525 | true implies that content is there; for a coherent store, true exactly when the plain map holds an unexpired record |
| ResultStores.ResultStore.EvictAny | prefect/src/prefect/results.py:311-312 | dropping any cached records keeps the store coherent |
| ResultStores.ResultStore.Run | prefect/src/prefect/results.py:551-626 | cache transparency: any sequence of writes, reads, existence checks and evictions answers as a plain map of the values and expirations passed to the writes, in both layouts and with either cache flag; what has expired is no longer there |
| ResultStores.ResultStore.RunFaulty | prefect/src/prefect/results.py:791-804 | over any sequence of writes, failing at any point, metadata never points at missing content |
| ResultStores.ReadBack | prefect/src/prefect/results.py:572-626 | for two keys of the same files, whatever their form and in both layouts: reading under one what was written under the other gives the new record if and only if they have the same cache key or nothing else is cached under the key read; always so with an unsaved storage block |
| ResultStores.StaleThroughAbsoluteKey | prefect/src/prefect/results.py:551-556 | with a saved storage block transparency does not extend to absolute keys: two keys of one file are cached separately |
| ResultStores.NullMetadataForgets | prefect/src/prefect/results.py:589-599 | with a null metadata storage a written record is lost with its cache entry |
| TaskEngine.SyncTaskRunEngine.RunTask | prefect/src/prefect/task_engine.py:1366-1390 | for every outcome of user code and every retry condition the loop ends after at most retries + 1 calls; every call but the last raised and was accepted for retry, the last was not; the run then ends FAILED after an exception (named TimedOut exactly after a timeout), CRASHED after a crash, COMPLETED and named Cached when the result was found, and otherwise in the state returned; counters and delays waited are determined |
| TaskEngine.SyncTaskRunEngine.SetState | prefect/src/prefect/task_engine.py:431-453 | the run count grows exactly when the new state is RUNNING |
| TaskEngine.SyncTaskRunEngine.BeginRun | prefect/src/prefect/task_engine.py:379-407 | RUNNING with the first run counted, or NotReady with none when an upstream task failed |
| TaskEngine.SyncTaskRunEngine.WaitUntilReady | prefect/src/prefect/task_engine.py:729-738 | a scheduled state becomes RUNNING, named Retrying after AwaitingRetry, and run count equals retries + 1 |
| TaskEngine.SyncTaskRunEngine.HandleRetry | prefect/src/prefect/task_engine.py:522-564 | retried exactly when retries are left and the condition accepts: AwaitingRetry after the fixed delay, or the listed one of this retry, of which the last repeats, and at once without a delay or with a zero or empty one; otherwise nothing changes |
| TaskEngine.SyncTaskRunEngine.HandleException | prefect/src/prefect/task_engine.py:566-598 | when not retried the run ends FAILED, named TimedOut exactly after a timeout, with the counters unchanged |
| RetryDelays.BackoffDelay | prefect/src/prefect/tasks.py:129-133 | the list is accepted by the task, is never indexed out of range, and gives factor times two to the retry, capped at the last of at most 50 |
| RetryDelays.BackoffGrows | prefect/src/prefect/task_engine.py:530-537 | delays never decrease from one retry to the next |
| RetryDelays.BackoffTotal | prefect/src/prefect/tasks.py:478-492 | the total delay of all retries in closed form |
| Waiters.NoWakeupLost | prefect/src/prefect/task_runs.py:163-206 | in every interleaving a call blocked on its event while its run is observed has the event set, or the consumer is about to set it |
| Waiters.SignalledUnlessMissed | prefect/src/prefect/futures.py:261-296 | when the consumer has nothing left to do, a call still blocked for a finished run is signalled if and only if the run did not finish before the consumer had subscribed |
| Waiters.ReadAfterSubscription | prefect/src/prefect/task_runs.py:163-206 | a call that reads an unfinished state after the subscription never waits for a missed run |
| Waiters.EarlyReadCanBlock | prefect/src/prefect/task_runs.py:88-112 | for every call and run missing is reachable: a run that finishes between the read and the subscription leaves the call blocked |
| Waiters.ReturnsOnlyWhenFinished | prefect/src/prefect/task_runs.py:177-206 | a call that does not time out returns only when its run is finished |
| Waiters.EventsAreRemoved | prefect/src/prefect/task_runs.py:203-206 | the dictionary of events never keeps an entry of a call that has returned |
| AsCompleted.NoLostSignal | prefect/src/prefect/futures.py:525-532 | whenever the lock is free the event is set exactly when the list of finished futures is not empty |
| AsCompleted.YieldedAndPendingPartition | prefect/src/prefect/futures.py:534-546 | once the initially final futures are out, yielded and pending partition the given futures, and none is yielded twice |
| AsCompleted.EachYieldedOnce | prefect/src/prefect/futures.py:513-546 | when the generator ends every unique future was yielded exactly once |
| AsCompleted.EachRoundShrinks | prefect/src/prefect/futures.py:537-546 | every batch taken is non-empty and consists of distinct pending futures |
| AsCompleted.WaitEnds | prefect/src/prefect/futures.py:537-539 | the generator cannot wait forever once all callbacks have run |
| CachePolicies.KeyIsMeaning | prefect/src/prefect/cache_policies.py:90-227 | the policy built by any expression of + and - computes the key of the flat meaning: leaves left to right, one inputs part with all exclusions, hashed once if there are two or more |
| CachePolicies.Associative | prefect/src/prefect/cache_policies.py:200-214 | + is associative up to the key |
| CachePolicies.NoneNeutral | prefect/src/prefect/cache_policies.py:246-248 | NONE is neutral on both sides up to the key |
| CachePolicies.Flat | prefect/src/prefect/cache_policies.py:162-177 | a compound never contains a compound, and at most one Inputs policy, which comes last |
| CachePolicies.ExcludedInputsIgnored | prefect/src/prefect/cache_policies.py:342-344 | runs whose non-empty inputs differ only in excluded names get equal keys |
| CachePolicies.NoInputsNoKey | prefect/src/prefect/cache_policies.py:336-340 | on a run without inputs an expression of nothing but NONE and Inputs has no key, and any other has the key of its leaves alone |
| CachePolicies.OnlyExcludedInputsIgnored | prefect/src/prefect/cache_policies.py:328-347 | with collision-free hashing and an Inputs part, the keys are equal if and only if the inputs agree outside the excluded names |
| CachePolicies.EarlySubtractionLost | prefect/src/prefect/cache_policies.py:82-88 | with collision-free hashing, two runs that differ in one input get different keys if its name was subtracted before an Inputs policy was added, and equal keys if it was subtracted afterwards |
| CachePolicies.CompoundKey | prefect/src/prefect/cache_policies.py:179-198 | the loop over parts hashes exactly the keys that are not None, in order, and gives None if there are none |
| CachePolicies.KeyOfInputs | prefect/src/prefect/cache_policies.py:328-347 | the loop over inputs hashes the dictionary without the excluded names |
| CachePolicies.PostInit | prefect/src/prefect/cache_policies.py:162-177 | the loop flattens compounds one level and the result is in normal form |
| CachePolicies.Deduplicate | prefect/src/prefect/cache_policies.py:170-177 | all Inputs policies are replaced by one at the end with the union of the exclusions |
| States.AggregateByCounting | prefect/src/prefect/states.py:588-635 | deciding by counts agrees with the rule stated on the states |
| States.WorstIsAggregate | prefect/src/prefect/states.py:392-404 | the aggregate rule is a maximum of severities |
| States.AggregationFlattens | prefect/src/prefect/states.py:392-404 | aggregating a tree of groups level by level gives the type that all its leaves at once give |
| States.ExceptionOfLeftmost | prefect/src/prefect/states.py:471-551 | for a root that did not complete, extraction ends, never reports that nothing failed, and returns the exception of the leftmost leaf that did not complete |
| States.NoneFailedExactly | prefect/src/prefect/states.py:537-545 | a list that aggregates to FAILED makes extraction report that nothing failed if and only if it has no failed or crashed member |
| States.OwnException | prefect/src/prefect/states.py:498-531 | a failed, crashed or cancelled state without inner states gives the exception it carries, or one of its own kind around its text, its message, or the fixed text of its kind |
| States.NoException | prefect/src/prefect/states.py:504-551 | a state of another kind is refused, and so is one that failed but carries a plain value or no states |
| States.ReturnedState | prefect/src/prefect/states.py:366-404 | plain values complete the run, a state made by hand is entered as it is, and a state that a run entered before counts by its kind and is carried along |
| TaskWorker.Admission | prefect/src/prefect/task_worker.py:209-227 | with a limit, in every interleaving: token holders are exactly the admitted unfinished runs, at most the limit, none twice, and per task the bodies begun are those finished and those in flight |
| TaskWorker.NotStartedAgain | prefect/src/prefect/task_worker.py:249-256 | a run that holds a token is not admitted again, nor begun while it is running |
| TaskWorker.QuiescentHoldsNone | prefect/src/prefect/task_worker.py:258-270 | a quiescent worker holds tokens for exactly the runs of unserved tasks it admitted, so for none if there were none |
| TaskWorker.DoubledOnlyWithoutLimit | prefect/src/prefect/task_worker.py:363-368 | for every configuration and every run of a served task: it can be begun while it is running if and only if there is no limit, a limit of zero being none |
| TaskWorker.CountedUnlessDoubled | prefect/src/prefect/task_worker.py:258-270 | with or without a limit: the bodies begun are those finished and those in flight, throughout, if and only if no run was begun while it was running |
| TaskWorker.UnlimitedStartsTwice | prefect/src/prefect/task_worker.py:209-217 | without a limit every run of a served task can be in flight once and running twice |
| RefPaths.BuildRefPaths | prefect/scripts/generate_settings_ref.py:12-32 | when no walk from the root comes back to a name the worklist ends; it records exactly the reachable references, each under the path of one of the deepest ways to it |
| RefPaths.DottedIsJoined | prefect/scripts/generate_settings_ref.py:24-24 | the recorded path of a walk is the names of its properties joined by dots |
| RefPaths.LastSegmentFollowsSlash | prefect/scripts/generate_settings_ref.py:27-27 | the recorded name is what follows the last slash of the reference |
| RefPaths.CycleNeverEnds | prefect/scripts/generate_settings_ref.py:19-30 | when some walk does, the worklist is not empty after any number of rounds |
| RefPaths.NoCycleRanked | prefect/scripts/generate_settings_ref.py:19-30 | without such a walk references go strictly down in the number of definitions beyond, which is what ends the loop |
| RefPaths.Scan | prefect/scripts/generate_settings_ref.py:20-31 | one round deals with every walk through the popped schema and adds exactly its weight to the work left |

## Left out

- Hook bodies, logging, telemetry, events, `get` and `set` of stored values: a hook only succeeds or raises. Exceptions that are not `Exception`s inside a hook, and entering one transaction object twice, are not modelled.
- Writes in the transaction model either store the value or leave the store alone; partial writes are in `ResultStores`. One store serves all transactions of a program.
- Lock managers: a set of keys held by this thread and the answer to releasing a key not in it. Waiting for locks held by others is in `Serializable`, which takes mutual exclusion of the manager as given and has no overwrite and no expiry.
- TransactionOutcome.OutcomeTheorem: for programs without swallowed exceptions and explicit `commit` or `rollback` calls; `TransactionStore`, `TransactionSingleWrite` and `TransactionContagion` cover those. A block that looks for a record under a key that an earlier part of the same program may have stored, and that was not stored initially, is outside the theorem.
- TransactionStrictPrograms.StrictOutcome: hooks and writes succeed, nothing is found, and no two transactions lock the same key.
- TransactionStore.Atomicity: for programs in which no release can raise; otherwise an exit can lose its transaction before the parent gets it, as `TransactionStrict.ExitWithoutReset` shows, and `TransactionStore.OnlyWritten` says what remains.
- TransactionContagion.Contagion: rollback hooks do not raise; one that does leaves its transaction as it was.
- TransactionStrict.CommitStrict: hooks and writes succeed, and no two transactions of the tree lock the same key.
- TransactionKept.LocksKept: no two transactions of the program lock the same key, and bodies do not call `commit` or `rollback`; `TransactionLocks.LeftHeld` bounds the general case from one side.
- TransactionPaths.CommittedExactly: when nothing is found; `TransactionOutcome.OutcomeTheorem` covers the rest.
- ResultStores.ResultStore.Run: relative keys and storage of metadata that is not null; the two storages are different file systems, serializers round-trip, and lock waiting is not modelled. `ResultStores.StaleThroughAbsoluteKey` and `ResultStores.NullMetadataForgets` show that both conditions are needed, and `ResultStores.ReadBack` when a read under any kind of key is fresh.
- Stores derived with `update_for_flow` or `update_for_task`, which share a cache between different storages.
- TaskEngine.SyncTaskRunEngine.RunTask: values returned by user code do not resolve to RUNNING or SCHEDULED states; real time, crashes between two statements, the asynchronous and the generator engines are not modelled.
- Waiters: `add_done_callback`, several waiters for one run at a time, and eviction of a run while it is awaited. The same state machine serves the task run and flow run waiters.
- AsCompleted: the timeout.
- CachePolicies: the exclusion list is a set; errors in hashing, and the key storage, lock manager and isolation level of configured policies.
- States: messages of aggregates, unordered sets of states, persistence of results.
- TaskWorker: cancellation of a run before its body begins; the run itself.
- The flow engine, whose transitions a server decides; HTTP clients, the command line, deployments, artifacts, automations and the user interfaces.
