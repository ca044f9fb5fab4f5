# Verification of the file server's executor, song index, log and text codecs

This project states in Dafny what the server promises where it is hardest to see by reading,
and proves it for every input, every run and every reachable state.

* **The database executor.** `thread_pool` with its two-ended deque, condition variable and
  stop flag, `connection_pool` with connections that can be lost, and `exec_command` with its
  promises. Every mutex section is one step of a state machine, and the windows outside the
  mutex are steps of their own: between a push and its `notify_one`, between the look at
  `done` and the pull, between a false predicate and the wait, and after
  `pull_connection` has let go of its mutex. Any number of workers, connections, callers and
  commands; the waiting tasks of the directory handler may share the pool or have their own.
* **The song index.** From the bytes of inotify through handler calls and transactions to the
  set of names in `song_table`; the refresh; and the two ways to answer a file request, by
  pattern query and by folder scan, up to the HTTP status.
* **Log retention.** The row counter of `update_log_table`, one request at a time and with
  sessions interleaved.
* **Loops with exact arithmetic.** The aligned table printer, the file list, the comma
  splitter and target dispenser of the client, and the string arrays a parser owns by hand.

| module | models |
|---|---|
| `Sums` | totals over sequences, the tool for counting who holds what |
| `ThreadPool` | `thread_pool` as a state machine, its invariant, its shutdown |
| `Executor` | callers, commands, connections, promises: states and steps |
| `ExecutorSafety` | what holds in every reachable state of the executor |
| `ExecutorWaiters` | the waiting tasks of commands, counted over whole runs |
| `ExecutorOrder` | in which order workers and callers take their steps, by the labels of the run |
| `ExecutorProgress` | no deadlock, and when a future can still be answered |
| `ExecutorFairness` | every future is resolved under weak fairness |
| `ExecutorLoad` | the same while commands keep coming, at either end of the deque |
| `ExecutorShutdown` | when the destructor's join can return |
| `DbPools` | the two pool classes; pushes, pulls, worker loop and destructor are steps or runs of the state machines |
| `Tables` | tables with an id sequence, and the transactions on them |
| `Inotify`, `SongIndex` | the event walk, the table's names, the refresh |
| `RefreshRuns`, `RefreshWitness` | the refresh as runs of the executor, and that such runs exist |
| `LogRetention`, `ConcurrentLog` | the log table and its counter |
| `Lookup`, `Server` | file requests by query and by scan, and the response |
| `TextTables`, `Client`, `ParserArrays` | printers, target list, string arrays |

Where the source is a class whose methods change its fields, so is the model; such a method's
contract ties the new state to a function or step of the old one, and the lemmas beside it say
what that function or state machine guarantees.

Some properties do not hold without a condition. Each is stated with its exact condition, and
with a run or an input on which it fails:

* The destructor of `thread_pool` stores `done` without the mutex, and a command without a
  connection spins for ever. After `notify_all` the database workers can all exit by their own
  steps if and only if none of them stood between a false predicate and its wait, and either a
  connection is left or no worker has a command to finish (`DestructorJoinsIff`).
  `ShutdownCanMiss` and `NoConnectionNoJoin` are the two ways to fail.
* A command can still be answered if and only if it has been already or a connection is left
  (`ResolvableIff`): a connection whose reset fails is never put back.
* After a history of the watched folder the table's names are its entries if and only if the
  folder is still there or no name has come and stayed since it went (`IndexMirrorsFolder`);
  records that follow the folder's end in a buffer are still handled (`LateRecordMisleads`).
* Each entry has exactly one row if and only if every name that came and stayed was new when it
  came. The handler inserts a row without asking what the entry is, while the refresh and the
  scan know regular files only; so the table mirrors the folder again if and only if every name
  that came and stayed came as a regular file that was not there yet (`IndexExactIff`,
  `HistoryMirrorsIff`). For a request for a plain, legal name that is nobody's uid the two lookup
  handlers lead to the same response if and only if that holds of this name
  (`SameAnswerAfterHistory`). A rename onto a file that is there (`RenameOntoSong`) and a
  directory made in the folder (`DirectoryListed`) are the ways to fail.
* The walk over the inotify bytes reads only the record it looks at if and only if no report
  that the folder itself is gone comes without a name field (`ReadsOwnIff`).
* A request leaves the log counter exact if and only if it is not an empty table under a
  negative limit (`CounterExactIff`): the trim then reads back 1 from a restarted sequence
  (`CounterOff`).
* The query handler's path and the scan's are the same string if and only if the folder path
  is not empty and does not end in a slash (`PathsAgreeIff`).

Three hypotheses are shown to be needed: that trims do not overlap (`OverlapForgetsRow`); the
order of same-name commands (`SameNameOrderMatters`), which the executor does not keep by itself
(`Overtakes`); and that commands which keep coming come at the back (`FrontPushesStarve`).

## Model

| member | source | states |
|---|---|---|
| ThreadPool.RunInv | DB_module/src/DB_module.cpp:128-161 | every run keeps the mutex discipline, the wake-up bound and the deque shape; nobody ever pulls from an empty deque |
| ThreadPool.WakeStep | DB_module/src/DB_module.cpp:128-161 | each single step, spurious wake-ups included, keeps the bound on queued tasks while a worker sleeps |
| ThreadPool.NoLostWakeup | DB_module/src/DB_module.cpp:128-161 | before shutdown, while some worker sleeps, queued tasks are at most the pushers between unlock and notify plus the workers heading for the predicate |
| ThreadPool.SleepersCovered | DB_module/src/DB_module.cpp:128-161 | the same bound with those workers counted as a set: the ones that go for the mutex, test, or are past the test |
| ThreadPool.SleeperMayWake | DB_module/src/DB_module.cpp:131-134 | a sleeper may wake up for nothing at any time and goes for the mutex, nothing else changes |
| ThreadPool.Halves | DB_module/src/DB_module.cpp:122-126 | the order of push stamps makes the deque two halves: front pushes newest first, then back pushes oldest first |
| ThreadPool.ReachableDeque | DB_module/src/DB_module.cpp:122-161 | every reachable deque has that shape |
| ThreadPool.OnePulling | DB_module/src/DB_module.cpp:131-138 | at most one worker is past the second look at the stop flag |
| ThreadPool.LatePullsBound | DB_module/src/DB_module.cpp:109-141 | from any state of the invariant, pulls after the flag is stored are bounded by the workers already past the check |
| ThreadPool.AtMostOneLatePull | DB_module/src/DB_module.cpp:109-141 | after `done` is stored all workers together pull at most one more task, in every run |
| ThreadPool.OneLatePull | DB_module/src/DB_module.cpp:109-141 | a run in which one task is pulled after the flag is stored, so the bound is exact |
| ThreadPool.ShutdownDescends | DB_module/src/DB_module.cpp:109-141 | after `done`, every step a worker takes by itself lowers a measure, so their steps end |
| ThreadPool.JoinReturnsIff | DB_module/src/DB_module.cpp:109-141 | for tasks that all end: after `notify_all` the workers can all exit by their own steps if and only if none was between a false predicate and its wait |
| ThreadPool.ShutdownCanMiss | DB_module/src/DB_module.cpp:109-134 | a run that stores the flag while a worker is in that window |
| ExecutorSafety.InvStep | DB_module/src/DB_module.cpp:36-70 | every step of callers, workers, waiting tasks and teardown keeps the executor's whole invariant |
| ExecutorSafety.RunInv | DB_module/src/DB_module.cpp:36-70 | so does every run |
| ExecutorSafety.ConnectionExclusive | DB_module/src/DB_module.cpp:230-256 | in every reachable state each established connection is in the deque, with one worker, lost or finished, in exactly one of these and there once |
| ExecutorSafety.ConnectionConservation | DB_module/src/DB_module.cpp:187-256 | deque + held + lost + finished is always the number established |
| ExecutorSafety.CommandPlaces | DB_module/src/DB_module.cpp:36-70 | every submitted command is queued, running on one worker, completed or dropped, exactly one of these, in one place and once |
| ExecutorSafety.PromiseOwn | DB_module/src/DB_module.cpp:36-70 | a promise is set exactly when its command was answered, with the answer to that command's own string, and never if the command was dropped |
| ExecutorSafety.PromiseSetOnce | DB_module/src/DB_module.cpp:53-60 | set_value only ever meets a promise that is not set |
| ExecutorSafety.PromiseKept | DB_module/src/DB_module.cpp:36-70 | a future that has its value keeps it in every continuation |
| ExecutorSafety.AwaitedFirst | Handler/src/handler.cpp:39-53 | a caller that blocks on a future, as refresh does on its truncation, can push its next command only when the awaited one has its answer and no worker can still run it |
| ExecutorSafety.WaiterBehindCommand | Handler/src/handler.cpp:59-75 | a worker that blocks on a future waits for a command that has already left the queue |
| ExecutorSafety.AfterTeardown | DB_module/src/DB_module.cpp:109-120 | once the pool is gone every future is valued or broken, not both, nobody holds a connection, and an emptied connection deque means each connection not lost was finished exactly once |
| ExecutorSafety.BrokenIff | DB_module/src/DB_module.cpp:109-120 | destroying the pool breaks the futures of the commands still queued, and no others |
| ExecutorSafety.BrokenWait | Handler/src/handler.cpp:62-73 | a waiting task meets a broken future only after the destruction and only in a pool of its own |
| ExecutorWaiters.RunBalanced | Handler/src/handler.cpp:59-75 | over every run, for every command: waiting tasks owed, queued and running before it, plus the submissions with one, equal those after it, plus the waits that ended or were dropped |
| ExecutorWaiters.WaitersConserved | Handler/src/handler.cpp:59-75 | in every run from the start a command is submitted with a waiting task at most once, and if so this one task is owed by its caller, queued, run, ended or dropped; no other waiting task exists; labels and jobs are counted with multiplicity |
| ExecutorWaiters.WaitersServed | Handler/src/handler.cpp:59-75 | when all has come to rest, each command submitted with a waiting task has had exactly one wait that ended, and the other commands none |
| ExecutorWaiters.EndedIsReady | Handler/src/handler.cpp:62-73 | a wait ends only when its command has been answered or its future is broken |
| ExecutorOrder.ActsInOrder | DB_module/src/DB_module.cpp:40-61 | after every run a worker with a command can act in a way if and only if that comes next after what the labels say it did last: take, look, reset if not in order, execute if in order or reset, set the promise, give back, and start again after a failed reset; it spins if and only if it is to take a connection and there is none |
| ExecutorOrder.SaysInOrder | Handler/src/handler.cpp:59-75 | after every run a caller can say something if and only if that comes next after what the labels say it said last (a call, its notify, the waiting task if there is one, its notify; a get, then its answer) and mutex, stop flag, sleepers and promises allow it |
| ExecutorOrder.TearsInOrder | DB_module/src/DB_module.cpp:109-120 | after every run, by its labels: the destruction can begin at any time, the workers can be woken once the flag is stored, the pool can go once all have exited, the connections can be finished once it is gone |
| ExecutorSafety.Overtakes | DB_module/src/DB_module.cpp:62-68 | for any two command strings there is a run with one worker that answers the second while the first is still queued |
| ExecutorProgress.Descends | DB_module/src/DB_module.cpp:36-70 | every productive step lowers a lexicographic measure of live connections, work and idling |
| ExecutorProgress.NoWaiterBlocks | Handler/src/handler.cpp:59-75 | waiting tasks in the shared pool cannot fill it: a halted state has no worker stuck on a future |
| ExecutorProgress.HaltedIsQuiescent | DB_module/src/DB_module.cpp:128-161 | a state in which nobody can move has empty queues, sleeping workers and idle callers |
| ExecutorProgress.NoDeadlock | DB_module/src/DB_module.cpp:36-70 | with a worker per pool, no shutdown and a connection left, every state that is not quiescent has an enabled productive step that loses no connection |
| ExecutorProgress.BusyRunSettles | DB_module/src/DB_module.cpp:36-70 | a schedule of productive steps only ends with all queues empty, all workers asleep, all callers idle and every command answered, or all connections lost first |
| ExecutorProgress.ResolvableIff | DB_module/src/DB_module.cpp:43-60 | a submitted command can still be answered if and only if it has been already or a connection is left |
| ExecutorFairness.FlatIsOver | DB_module/src/DB_module.cpp:128-161 | in a run with weakly fair workers and callers, back pushes included, in which no task is pulled or carried on any more, every submitted command has been answered, or no connection is left |
| ExecutorFairness.EveryFutureResolves | DB_module/src/DB_module.cpp:36-70 | in every run without new commands and with weakly fair workers and callers, with any amount of spinning, spurious wake-ups and reading of futures in between, each submitted command gets its own answer, or all connections are lost first |
| ExecutorLoad.ConnectionComes | DB_module/src/DB_module.cpp:43-60 | under weak fairness the connection deque is never empty for good while a connection is left |
| ExecutorLoad.BackPushesResolve | DB_module/src/DB_module.cpp:36-70 | commands pushed at the back at any rate keep none from its answer: with weakly fair callers and strongly fair workers each command submitted by any moment is answered with its own answer, or all connections are lost first |
| ExecutorFairness.SteadyMeans | DB_module/src/DB_module.cpp:62-68 | the runs spoken of leave out the destruction and front pushes, and nothing else |
| ExecutorLoad.FairRunExists | DB_module/src/DB_module.cpp:36-70 | from every state with a connection left and no shutdown there is an infinite run with all the fairness the theorems ask for |
| ExecutorLoad.FrontPushesStarve | DB_module/src/DB_module.cpp:62-64 | for every n a run in which n commands pushed later at the front are answered while the first command is still queued |
| ExecutorShutdown.DestructorJoinsIff | DB_module/src/DB_module.cpp:109-141 | after `notify_all` the database workers can all exit by their own steps if and only if none was between a false predicate and its wait, and a connection is left or no worker runs a command or has one in front of it past the check |
| ExecutorShutdown.SpinsForever | DB_module/src/DB_module.cpp:40-51 | with no connection left a command that was begun keeps its worker in every run, whatever anybody does, and the pool is never destroyed |
| ExecutorShutdown.NoConnectionNoJoin | DB_module/src/DB_module.cpp:43-51 | for every command string a reachable state in which nobody sleeps, the destructor has begun and its join never returns |
| DbPools.WorkerPool.constructor | DB_module/src/DB_module.cpp:86-107 | the pool starts in the state machine's first state |
| DbPools.WorkerPool.PushTaskBack | DB_module/src/DB_module.cpp:143-151 | the mutex section of a back push is the machine's push step |
| DbPools.WorkerPool.PushTaskFront | DB_module/src/DB_module.cpp:153-161 | the mutex section of a front push is the machine's push step |
| DbPools.WorkerPool.NotifyOne | DB_module/src/DB_module.cpp:149-159 | wakes one sleeper if there is one, and none only if nobody sleeps |
| DbPools.WorkerPool.PullTask | DB_module/src/DB_module.cpp:122-126 | hands out the front task and is the machine's pull step |
| DbPools.WorkerPool.RunNext | DB_module/src/DB_module.cpp:131-140 | one turn with a task to run is a run of the machine from loop to loop |
| DbPools.WorkerPool.FallAsleep | DB_module/src/DB_module.cpp:131-134 | one turn with an empty deque is a run of the machine into sleep |
| DbPools.WorkerPool.WorkerThread | DB_module/src/DB_module.cpp:128-141 | undisturbed, a worker runs the whole deque front to back and sleeps, or exits at once when told to stop; all of it a run of the machine |
| DbPools.ConnectionPool.Connect | DB_module/src/DB_module.cpp:192-205 | succeeds if and only if one of five attempts does; on success one more handle is made than attempts failed before the first that succeeds, and after five failures five; the handle of every failed attempt is finished |
| DbPools.ConnectionPool.MakeConnections | DB_module/src/DB_module.cpp:187-217 | the deque holds, in order, the slots one of whose attempts succeeded; conns_established is their number; every handle made is in the deque or finished |
| DbPools.ConnectedDistinct | DB_module/src/DB_module.cpp:187-217 | those are, increasing, exactly the slots for which one of five attempts succeeds |
| DbPools.ConnectionPool.PullConnection | DB_module/src/DB_module.cpp:230-256 | false without a change on an empty deque, where the executor spins; otherwise the front is taken out, even when the call then fails, and the call is a run of the executor on the same deque |
| DbPools.ConnectionPool.PushConnection | DB_module/include/DB_module.h:35 | the connection goes back to the front, which is the executor's step |
| DbPools.ConnectionPool.Destroy | DB_module/src/DB_module.cpp:219-228 | finishes what the deque holds, once each and in order, as a run of the torn executor |
| DbPools.PullRefines | DB_module/src/DB_module.cpp:230-256 | an undisturbed pull is a run of the executor: same connection, same deque, lost exactly when status and reset both fail |
| Tables.ContiguityStep | Handler/src/handler.cpp:13-38 | every successful transaction, renumbering in any scan order, leaves the ids 1..n once each and n+1 next |
| Tables.ContiguityKept | scripts_for_DB/pet_project_db_tables.sql:1-21 | so does every history of transactions on either table |
| Tables.TrimExact | Handler/src/handler.cpp:146-161 | deleting the ids up to d removes exactly min(d, n) rows, and last_value is the number left, or 1 when none is left |
| Inotify.RecordRead | Inotify_module/src/inotify_module.cpp:234-240 | at an encoded record's offset its mask, length and name read back from the bytes |
| Inotify.Advance | Inotify_module/src/inotify_module.cpp:234-316 | stepping by header plus length leads to the next record with all calls so far made |
| Inotify.EventMeans | Inotify_module/src/inotify_module.cpp:240-310 | which event a mask is, bit by bit in the kernel's numbering, the first bit in the order of the tests deciding |
| Inotify.Layout | Inotify_module/src/inotify_module.cpp:234-240 | where the four words, the name and the padding of a record stand in its bytes |
| Inotify.KernelRecords | Inotify_module/src/inotify_module.cpp:234-240 | every record with a name that ends in a NUL, and every nameless one about the folder itself, is one the walk is stated for |
| Inotify.OffsetsMean | Inotify_module/src/inotify_module.cpp:315 | record k is visited at the size of the records before it |
| Inotify.GoneMeans | Inotify_module/src/inotify_module.cpp:284-309 | after a list of records the path is empty if some record reported the folder gone, and the old one otherwise |
| Inotify.CallsMean | Inotify_module/src/inotify_module.cpp:240-310 | record by record: no call for a mask that is not recognised, otherwise one, with an empty path if the folder was reported gone before, and with the name in quotes |
| Inotify.InotifyModule.Dispatch | Inotify_module/src/inotify_module.cpp:240-314 | one handler call exactly for a recognised mask; a report that the folder is gone clears the path and sets done, any other record leaves both |
| Inotify.InotifyModule.ReadHandleEvent | Inotify_module/src/inotify_module.cpp:221-316 | on the bytes of any list of events: each record visited once, in order and where it begins, all bytes consumed, the handler called exactly for the recognised ones, the path cleared and done set if and only if some record reported the folder gone |
| Inotify.ReadsOwnIff | Inotify_module/src/inotify_module.cpp:234-316 | every name the walk looks at ends inside its own record if and only if no report that the folder itself is gone has an empty name field |
| SongIndex.NamesStep | Handler/src/handler.cpp:7-34 | each transaction acts on the set of names as its command means |
| SongIndex.NamesRun | Handler/src/handler.cpp:7-34 | so does every sequence of them |
| SongIndex.SameBearing | Handler/src/handler.cpp:7-57 | in such an order the commands that bear on one name are executed as a sequence exactly as emitted |
| SongIndex.SwapAllowedIff | Handler/src/handler.cpp:7-34 | two commands may change places if and only if they are about different names or are the same |
| SongIndex.TallyRun | Handler/src/handler.cpp:13-38 | commands executed one after the other leave, of any songs of one name, the rows their tally says |
| SongIndex.ScheduleIndependence | Handler/src/handler.cpp:7-57 | any execution order that keeps same-name and whole-table commands as emitted leaves the songs the emission order leaves, duplicates included, and so the same names |
| SongIndex.SameNameOrderMatters | Handler/src/handler.cpp:20-27 | an add and a removal of one name, swapped, leave different names |
| SongIndex.IndexMirrorsFolder | Inotify_module/src/inotify_module.cpp:234-316 | after any history of the folder, through records, handler and any such execution order, the table's names are the folder's entries if and only if the folder is still there or no name has come and stayed since it went |
| SongIndex.ReportMasks | Inotify_module/src/inotify_module.cpp:240-310 | the mask and name of the record that reports each change, in numbers, directories with their own bit |
| SongIndex.AddedSong | Handler/src/handler.cpp:10-18 | a record that a name came leads to one add: the name, the hash of the name in quotes, the path |
| SongIndex.LateRecordMisleads | Inotify_module/src/inotify_module.cpp:296-316 | an empty folder moved away and a file created in it, in one buffer: the table holds one row, this file under an empty path, and the folder has no entries |
| SongIndex.IndexExactIff | Inotify_module/src/inotify_module.cpp:234-316 | after any history, for all entries and for the regular files alone: each has one row and nothing else has any if and only if every name that comes and stays comes as one of them into a folder that is there and does not have it as one yet |
| SongIndex.RefreshExact | Handler/src/handler.cpp:35-54 | however adds and workers interleave, a completed refresh holds exactly the listed songs, each name once, with ids 1..n |
| SongIndex.RefreshFails | Handler/src/handler.cpp:39-45 | a failed truncation leaves the table and queues nothing |
| RefreshRuns.RunTracks | Handler/src/handler.cpp:35-57 | every run of the executor in which one caller submits the truncation, awaits it and then submits the adds is, step by step, a run of the refresh |
| RefreshRuns.RefreshedByExecutor | Handler/src/handler.cpp:35-57 | on the executor, with any workers and any order: once all commands are answered, the commands executed were the truncation and the adds, and the table holds exactly the listed songs, each name once, with ids 1..n |
| RefreshRuns.GaveUpByExecutor | Handler/src/handler.cpp:39-45 | a caller that returned after a failed truncation has left the table alone and submitted no add |
| RefreshWitness.RefreshCarriedOut | Handler/src/handler.cpp:35-57 | for every list of songs and all command strings there is a run that carries the refresh out, with every command answered |
| RefreshWitness.RefreshGivenUp | Handler/src/handler.cpp:39-45 | for every outcome that tells of a failure there is a run in which the caller returns after the truncation |
| LogRetention.CounterExactIff | Handler/src/handler.cpp:140-186 | from an exact counter a request leaves an exact counter if and only if not (empty table and negative limit); a request over the limit removes limit/2 rows |
| LogRetention.CounterOff | Handler/src/handler.cpp:144-185 | on an empty table every negative limit leaves one row and a counter of two |
| LogRetention.RetentionStep | Handler/src/handler.cpp:140-186 | for limits of at least 2 the rows stay within limit + 1 or do not grow; a request over the limit lets it grow if and only if the limit is below 2 and shrinks it if and only if the limit is at least 4 |
| LogRetention.Retention | Handler/src/handler.cpp:140-186 | after k requests with T trims there are n0 + k - T*(limit/2) rows, all counted, never more than max(n0, limit + 1) |
| LogRetention.Settles | Handler/src/handler.cpp:140-186 | for limits of at least 4 an oversized table loses a row or more with every request until it is within limit + 1, and stays there |
| LogRetention.LogIsSuffix | Handler/src/handler.cpp:140-186 | if renumbering keeps id order, the table is a suffix of the initial log followed by the requests |
| LogRetention.InOrderIsRun | Handler/src/handler.cpp:140-186 | such a run is a run, so its suffix has the length above |
| LogRetention.HalfTruncates | Handler/src/handler.cpp:146 | half the limit is rounded toward zero, for negative limits too |
| LogRetention.LogKeeper.constructor | Handler/src/handler.cpp:79-125 | whatever ids the table had, the server starts with contiguous ids, without the rows that are too old, and with an exact counter |
| LogRetention.LogKeeper.UpdateLogTable | Handler/src/handler.cpp:140-186 | load, trim, compare-exchange, insert and increment together are one step of the relation above |
| ConcurrentLog.TrimOfTable | Handler/src/handler.cpp:146-161 | the concurrent model's trim is what the transaction does to every contiguous table |
| ConcurrentLog.CoverStep | Handler/src/handler.cpp:140-186 | no step lets a row escape counter plus uncounted insertions |
| ConcurrentLog.WindowStep | Handler/src/handler.cpp:144-163 | inside the window from load to compare-exchange, an unchanged counter means the value read back still covers the rows |
| ConcurrentLog.BoundStep | Handler/src/handler.cpp:140-186 | no step takes rows plus insertions to come over the bound |
| ConcurrentLog.ConcurrentBound | Handler/src/handler.cpp:140-186 | with K sessions interleaved and windows that do not overlap, rows + sessions past the check never exceed max(n0, limit + K), and no row escapes the count |
| ConcurrentLog.WindowOnCounter | Handler/src/handler.cpp:144-163 | what a window does in a run with windows apart: if k > 0 rows were counted between load and exchange the counter is the loaded value plus k, otherwise it is the last_value the trim read back; the rows lose limit / 2, or all there are, and gain what was inserted |
| ConcurrentLog.OutsideWindows | Handler/src/handler.cpp:164-185 | with no window open and no counter over the limit loaded, every count adds one to the counter and every insertion one to the rows |
| ConcurrentLog.AloneIsSequential | Handler/src/handler.cpp:140-186 | a session that nobody interleaves leaves the rows and the counter of the sequential step |
| ConcurrentLog.SingleIsApart | Handler/src/handler.cpp:140-186 | one session alone meets the hypothesis in every run |
| ConcurrentLog.OverlapForgetsRow | Handler/src/handler.cpp:162 | a run of two sessions with overlapping windows whose exchange forgets a row |
| Lookup.PlainMatch | Handler/src/handler.cpp:270-275 | a pattern without operators matches its own text only |
| Lookup.PrefixMatch | Handler/src/handler.cpp:266-275 | p% matches exactly the strings that start with p |
| Lookup.PatternMeans | Handler/src/handler.cpp:266-275 | the pattern sent for a target matches the names the scan wants |
| Lookup.OperatorsMean | Handler/src/handler.cpp:270-275 | in a pattern _ stands for any one character and % for any number of them |
| Lookup.IllegalMeans | Handler/src/handler.cpp:260 | a target is illegal if and only if it ends in a slash or holds two dots in a row |
| Lookup.FoundMeans | Handler/src/handler.cpp:300-319 | a file is found only if name and uid have one row together, no query failed, and target and result are those of this row |
| Lookup.ErrorOfFailure | Handler/src/handler.cpp:285-332 | a failed query for the name, or for the uid when the name has at most one row: what the error string held, followed by the database, the asked target and the message |
| Lookup.ErrorOfSeveral | Handler/src/handler.cpp:285-347 | several rows for the name or for the uid, or one for each: the error quotes the target as it was requested |
| Lookup.ErrorOfNothing | Handler/src/handler.cpp:295-299 | no row for name or uid: the error names the target as it was asked |
| Lookup.UriByRows | Handler/src/handler.cpp:257-320 | what the query handler leaves, by the number of rows, when no uid matches |
| Lookup.ScanByHits | Handler/src/handler.cpp:415-454 | what the scanning handler leaves, by the number of files that match |
| Lookup.ScanFinds | Handler/src/handler.cpp:415-454 | what the scan finds is the first regular file that begins with what stands before the star, or is this very name |
| Lookup.IndexAgreesWithScan | Handler/src/handler.cpp:257-356 | on a table that mirrors the folder both reject the same targets, find the same path and target, agree on not found, and "several" means the scan returns one of the matches |
| Lookup.PathsAgreeIff | Handler/src/handler.cpp:319 | the two paths are equal if and only if the folder path is not empty and does not end in a slash; otherwise the scan's is the folder path followed by the name |
| Lookup.RefreshMirrors | Inotify_module/src/inotify_module.cpp:167-184 | a completed refresh leaves a table that mirrors the folder |
| Lookup.ListedMeans | Inotify_module/src/inotify_module.cpp:167-184 | the songs a refresh hands over: the regular files in order, each with the hash of its name in quotes and the folder's path |
| Lookup.ListedAsAdded | Inotify_module/src/inotify_module.cpp:167-184 | a refresh gives a file the row that the report of its creation gives it, uid included |
| Lookup.StarredUids | Handler/src/handler.cpp:271-275 | a starred target finds exactly the rows whose uid begins with what stands before the star |
| Lookup.UidFinds | Handler/src/handler.cpp:271-319 | in a table that holds what a refresh lists, a uid that only one file has, and that is nobody's name, leads to this file and makes its name the target |
| Lookup.MirrorsMeans | Handler/src/handler.cpp:13-16 | a table mirrors a folder if and only if it has one row for each regular file and the folder's path in every row |
| Lookup.HistoryMirrorsIff | Inotify_module/src/inotify_module.cpp:234-316 | after any history that leaves the folder, a table that mirrored its regular files mirrors them again if and only if every name that came and stayed came as a regular file that was not there yet |
| Lookup.AgreeAfterHistory | Handler/src/handler.cpp:257-356 | then the two handlers leave the same result for every request, starred ones included, that at most one file matches |
| Lookup.RenameOntoSong | Handler/src/handler.cpp:338-347 | after a rename onto a song that is there the query handler answers several, the scan the one file |
| Lookup.DirectoryListed | Handler/src/handler.cpp:10-18 | after a directory is made in an empty folder the query handler finds it, the scan does not |
| Lookup.ResHandle | Handler/src/handler.cpp:322-356 | outcome and strings for each kind of answer, the other entries untouched |
| Lookup.FillSeveral | Handler/src/handler.cpp:340-346 | the star is restored before the target is quoted in the error |
| Lookup.GetFileUri | Handler/src/handler.cpp:257-320 | target, result and error become those of the lookup function, the other entries untouched |
| Lookup.Find | Handler/src/handler.cpp:415-454 | the loop over the directory leaves the first wanted regular file, or the not-found error |
| Server.StatusByOutcomes | Server_HTTP/include/server_http.h:283-313 | through all string building and prefix tests, the choice among 400, 300, 500, 404 and opening the file depends on the target's legality and the two lookup outcomes only, whatever the log update left |
| Server.ScanStatus | Server_HTTP/include/server_http.h:283-313 | with the scanning handler the choice is 400, 404 or opening the file, by legality and number of matches |
| Server.RejectedIff | Server_HTTP/include/server_http.h:283-293 | for every target but the empty one, whatever the lookups give: either handler's response is 400 if and only if the target ends in a slash or holds two dots in a row |
| Server.UidAfterRefresh | Handler/src/handler.cpp:271-319 | after a completed refresh a request by the uid that only this file has opens this file, with its name as the target |
| Server.SameResponse | Server_HTTP/include/server_http.h:283-317 | with a mirroring table and at most one match the two handlers lead to the same response or the same path, the body text of errors apart |
| Server.SameAnswerIff | Server_HTTP/include/server_http.h:283-317 | for a plain, legal name that is nobody's uid the two handlers lead to the same response if and only if the name has one row when it is a regular file and none when it is not |
| Server.SameAnswerAfterHistory | Server_HTTP/include/server_http.h:283-317 | after any history that leaves the folder this is so if and only if each time the name came and stayed it came as a regular file that was not there yet |
| Server.HandleRequest.constructor | Server_HTTP/include/server_http.h:214-227 | eight entries, empty but for the peer's port and address |
| Server.HandleRequest.HandlerVectorFill | Server_HTTP/include/server_http.h:191-212 | no entry of an earlier request survives, the peer's address and port do |
| Server.HandleRequest.Handle | Server_HTTP/include/server_http.h:228-317 | other methods get 400 and change nothing; the six targets that ask for tables get the table text; every other target gets the response of the lookup function, as if the object were new |
| TextTables.MaxLengthBounds | Handler/src/handler.cpp:235-242 | a column's width bounds every cell and is reached by one |
| TextTables.WidthsFit | Handler/src/handler.cpp:235-249 | with these widths every cell fits, so the padding subtraction never goes below zero |
| TextTables.ColumnAligned | Handler/src/handler.cpp:245-254 | in every line column j starts at the sum of the earlier widths plus two each, and holds the row's cell |
| TextTables.OffsetIs | Handler/src/handler.cpp:245-254 | where a column starts: two for each earlier column, and the sum of their widths |
| TextTables.TableRoundTrip | Handler/src/handler.cpp:230-255 | cutting the text at those offsets and stripping blanks gives back every cell |
| TextTables.ColumnWidth | Handler/src/handler.cpp:238-241 | the inner loop computes the longest cell |
| TextTables.ColumnWidths | Handler/src/handler.cpp:233-242 | the outer loop computes the widths of all columns but the last |
| TextTables.FormLine | Handler/src/handler.cpp:247-252 | the loop builds the padded line |
| TextTables.FormTable | Handler/src/handler.cpp:230-255 | the text is added to what the result held, with the widths above |
| TextTables.DigitsExact | Handler/src/handler.cpp:456-465 | the digit count d has 10^(d-1) <= n < 10^d, is the printed length, and the printed digits have the value n |
| TextTables.DigitsMonotone | Handler/src/handler.cpp:482-490 | a smaller number has no more digits |
| TextTables.NumberOfDigits | Handler/src/handler.cpp:456-465 | the loop counts the digits |
| TextTables.NamesAligned | Handler/src/handler.cpp:481-492 | in each line at least one blank follows the position, and every name starts in the column of the heading |
| TextTables.FirstColumnIs | Handler/src/handler.cpp:481-490 | the first column is three wide up to 999 files and as wide as the last number beyond |
| TextTables.FilesTableLines | Handler/src/handler.cpp:467-494 | read back line by line the list is the heading and one line for each file in order, numbered from 1, and nothing else |
| TextTables.FormFilesTable | Handler/src/handler.cpp:467-494 | the loops build the heading and one such line per file, in order |
| Client.JoinedBack | Client_HTTP/src/client_http.cpp:60-73 | a list of comma-free pieces joined with commas and any white space after each comma reads back as it was |
| Client.TrimSplit | Client_HTTP/src/client_http.cpp:69-70 | blanks after a comma belong to the next piece and only to it |
| Client.SkipBlanks | Client_HTTP/src/client_http.cpp:70 | the inner loop stops at the next character that is not blank, at the latest at the terminating NUL |
| Client.NextPiece | Client_HTTP/src/client_http.cpp:65-71 | one round keeps a piece and moves on strictly, still within the line |
| Client.Parse | Client_HTTP/src/client_http.cpp:60-73 | the loop collects exactly the pieces of the line |
| Client.CountedStep | Client_HTTP/src/client_http.cpp:120-140 | each turn keeps (L - loops)*n + index equal to the picks made |
| Client.DispensesInOrder | Client_HTTP/src/client_http.cpp:120-140 | for any interleaving of sessions the picks are a prefix of the list repeated L times, one per turn, all of it exactly when looping is over, and no position is out of range |
| Client.TargetDispenser.constructor | Client_HTTP/src/client_http.cpp:33-42 | looping starts exactly with a non-empty list and a positive count |
| Client.TargetDispenser.NextTarget | Client_HTTP/src/client_http.cpp:120-140 | the block with its atomics is one turn of the dispenser and never leaves the list |
| ParserArrays.OwnsKept | ini_and_parser/src/parser.cpp:109-162 | an array whose allocations nobody touched keeps its content |
| ParserArrays.AllocTable | ini_and_parser/src/parser.cpp:129-150 | the loop leaves a fresh, null-ended array of fresh copies, and changes nothing else |
| ParserArrays.FreeTable | ini_and_parser/src/parser.cpp:109-127 | each string and the array are freed once, and nothing else |
| ParserArrays.Parser.ConstructingMassives | ini_and_parser/src/parser.cpp:164-182 | the parser owns both arrays, unshared, with the section's entries; nothing allocated is left unowned if and only if there is an entry |
| ParserArrays.Parser.ClearingMassives | ini_and_parser/src/parser.cpp:109-127 | frees exactly what the parser owns |
| ParserArrays.Parser.CopyingMassives | ini_and_parser/src/parser.cpp:129-150 | a deep copy: same entries, nothing shared, the other parser unchanged |
| ParserArrays.Parser.Assign | ini_and_parser/src/parser.cpp:152-162 | assignment frees the old arrays once, copies the right side and leaves every other allocation alone; to itself it does nothing |
| ParserArrays.ValidateParsed | ini_and_parser/src/parser.cpp:192-206 | good exactly when the keys are the expected ones in order; otherwise the first that differs; the expected names are overrun exactly when all of them match and there are more keys |

## Left out

- Sockets, the I/O library, libpq, the database server, inotify and ioctl calls, console prompts and opening the file: what they return is a parameter or a free choice of a step.
- The value of `std::hash` is a parameter; SQL quoting of names and headers is not modelled, names are assumed plain.
- Inserts that fail but use up a sequence number; all transactions of `Tables`, `LogRetention` and `ConcurrentLog` succeed.
- LogRetention.LogKeeper.UpdateLogTable: the branches for a failed trim or insert are not modelled; what a failed insert leaves in the error string is an input of `Server.StatusByOutcomes`.
- ExecutorFairness.EveryFutureResolves: new commands during the run are the subject of `ExecutorLoad.BackPushesResolve`, which asks for strong fairness of the workers, since they then compete for connections without end.
- ExecutorSafety.BrokenWait: what follows is not modelled: the source's `get` throws on the broken promise, out of the worker thread, and the process ends.
- ExecutorSafety.AfterTeardown: calls of `exec_command` while the pool is being destroyed, and pools that outlive the DB_module, are not modelled; neither is the destruction of the separate pool for waiting tasks.
- ThreadPool.JoinReturnsIff: takes every task for one that ends; `ExecutorShutdown.DestructorJoinsIff` is the statement about the commands of `exec_command`.
- ExecutorShutdown.DestructorJoinsIff: says when the join can return, not that every schedule makes it return; later spurious wake-ups are not counted on.
- Threads that fail to start and the number of processors: the number of workers is a parameter, also 0.
- SongIndex.ScheduleIndependence: the executor itself gives no order, so the order of same-name commands is a hypothesis.
- ConcurrentLog.ConcurrentBound: windows from load to compare-exchange that overlap are excluded by hypothesis.
- Client.DispensesInOrder: sessions interleave at their yields, as on one io thread; several io threads are not modelled.
- Lookup.PatternMeans: operators of SIMILAR TO other than % and _ are excluded, as the agreement of the handlers requires.
- Lookup.Find: a folder that cannot be listed is not modelled.
- Inotify.InotifyModule.ReadHandleEvent: the name in the arguments of a dir_del call (the handler ignores it), a failed read, and the call at the end of the function, which returns 0 on success and so does nothing, are not modelled.
- Server.HandleRequest.Handle: the text of the requested tables is an input; headers, HEAD against GET, MIME types and error bodies are not modelled. The bodies of the two handlers' not-found errors differ, because the query handler leaves the % in the target.
- ParserArrays.Parser.ConstructingMassives: one array is allocated after the other, where the source takes turns; which address an allocation gets means nothing.
- ParserArrays.ValidateParsed: what happens after the expected names are overrun is not defined in the source and ends the model's loop.
- RefreshRuns.RefreshedByExecutor: commands of other callers during the refresh, and adds that fail, are excluded, as they change the table.
- Lookup.HistoryMirrorsIff: what an entry is stays as it was when it came; a symbolic link whose target appears or goes later is not modelled.
- Loggers, the configuration search, the session loop, `warm`, the system call parser and the example programs: driven by I/O or easy.
