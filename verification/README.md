# Shiitake in Dafny

Shiitake hands out resident worker containers to shell sessions. A server keeps
a pool of workers, each connected by one ordered socket; a session owns one
worker, and its commands run either in the session's Bash, one at a time
(stateful), or beside it (parallel). This project models the server pool, the
worker's session loop and lifecycle, the two of them composed over their
channels, and the small codecs and scanners the protocol rests on, and proves
what they promise. `dafny verify dfyconfig.toml` checks all of it.

## How it is laid out

- `Protocol`: the frames of a session and how to count the commands in them.
- `Scheduler`: `run_session`. A pure step function per arm of the loop, its
  invariants and theorems, and the class `SessionScheduler`, whose methods
  change the loop's variables and are proved to do exactly that step.
  `Sequential` puts the Bash process and its terminal beside the loop.
- `ServerPool`: the state behind the pool lock, one function per critical
  section, and the invariant every section keeps. `PoolObject` is `WorkerPool`
  as a class, each method proved to do that function.
- `Link`: one worker with its two channels, and what the server knows of it.
  `Reports`: the worker's own promise, one report per session opened.
- `System`: server and workers as one transition system. A label is one critical
  section, one frame written or read, or one event inside a worker; labels
  interleave freely. `Composition` proves one invariant of every reachable
  state; `Guarantees`, `Outcomes`, `SessionRuns`, `Drops`, `Stranding`,
  `Heard`, `StuckCommand`, `LeakedWorker`, `RunsOnce`, `IdleOrder`, `Activity`
  and `SessionStates` read the service's promises, and where they end, off it,
  over whole runs. `Frames`, `Openings` and `Causes` follow what is on the wire,
  what commands are started with, and what clients read, back to the steps of
  the run they come from.
- `Lifecycle`: `run` and `serve_session`. `StatefulWatch`: the poller of one
  stateful command. `ShellState`: the snapshot such a command leaves.
- `Marker`, `Bytes`, `Utf8`, `Chunk`, `PublicId`, `Capture`, `ShellQuote`,
  `Passwd`, `Account`: scanner, codecs, ids, paths, quoting, account naming.

Proofs use `hide` to keep definitions that a step does not need out of the
solver's way.

## What the model takes as given

- Session and command ids are fresh: creating with a used session id, or
  registering a used command id, is not a step.
- A connection the server has begun to drop, or on which a write failed,
  delivers nothing more. A worker that gives its connection up is replaced by
  one that says Hello again.
- A job reports only if the loop spawned it and it has not reported; only the
  watcher of the running stateful command gives up on it. `StatefulWatch.OneReport`
  is what justifies this for stateful commands.
- Timeouts, send results, probe results, spawn and reset results, and the clock
  are arbitrary inputs of a step. Times are integers; numbers are unbounded
  (`served`, `stateful_count` and uids never approach their machine widths).
- File operations of the passwd and snapshot readers succeed; the home root is
  a single line.

## Where code and comments differ

The model follows the code.

- The comment on `run` says that with `restart_after == 0` it never returns. It
  does, if and only if a unit loses the server or is reported after a failed
  reset (`Lifecycle.NoQuotaEnds`; `Lifecycle.NoQuotaWitness` has a run of each).
  It only never ends *by the quota* (`Lifecycle.QuotaEnds`).
- A drop is two critical sections, and a submit can register a command between
  them. `Drops.NothingStranded` shows nothing is left behind when none does;
  `Stranding.StrandedExactly` that exactly the commands registered between them
  are; `Drops.RaceStrands` is a run in which it happens, and the command then
  says Running until a worker of the same id is dropped again.
- A terminal is refused while a stateful command is counted, but a worker answers
  for a command that does not stop, or whose shell state cannot be read, before
  it takes it off its running set. A terminal can be attached in that time, and
  only then share the session with it (`Guarantees.MutualExclusion`);
  `StuckCommand.StuckRun` is a run in which it does.
- `session_closed` ignores a session it does not know. If a session that failed
  to open is swept before its worker's report is read, the worker stays owned
  and is not handed out again until it is dropped (`LeakedWorker.ReportFrees` is
  the exact condition, `LeakedWorker.LeakRun` a run).
- A reset that failed or was skipped does not always keep the sandbox from being
  used again: if the report cannot be sent either, the process reconnects
  (`Lifecycle.CleanSandbox` is the exact condition, `Lifecycle.DirtyStart` an instance).
- `passwd_without` keeps the trailing-newline shape of the file it is given, not
  of the file before `ensure` appended to it; `Account.CleanupUndoes` says exactly
  for which files the original comes back, and `Account.CleanupLoses` has one
  for which it does not.
- `ensure` calls itself idempotent. On a file whose last line has no newline it
  need not be: `Account.EnsureTwice` is the exact condition and
  `Account.NamedTwice` a file on which a second call appends a second entry.

## Model

| member | source | states |
|---|---|---|
| Scheduler.OrderingBarrier | shiitake-worker/src/client.rs:915-1075 | over every run of the loop, commands start in submission order, at most one stateful command runs, and a command has started only if every stateful command before it finished, failed setup or was withdrawn |
| Sequential.SequentialEquivalence | shiitake-worker/src/client.rs:902-1095 | whatever the order of submits, cancels, completions and terminal input, each started command got the directory and variables of the last snapshot an interpreter has that runs the started stateful commands before it one after another, with the input in its place among them, or, before any of them, the session's directory and variables with TERM and HOME spelled out; always the session's identity; and the live Bash is that interpreter's |
| Scheduler.SchedulerBound | shiitake-worker/src/client.rs:916-969 | running and queued stay disjoint, free of duplicates and at most 32 together, the running limit never holds a queued command back, and a queue left at the select point means a running stateful command or a failed setup just answered |
| Scheduler.AdmitFills | shiitake-worker/src/client.rs:916-969 | the same for one admission from any state of the invariant |
| Scheduler.StepInv | shiitake-worker/src/client.rs:915-1104 | every arm of the loop keeps the invariant that ties queue, running set and barrier to the history of accepted commands |
| Scheduler.StepFlow | shiitake-worker/src/client.rs:915-1104 | a step neither loses a command nor answers one twice: held after plus answered is held before plus offered; a step that ends the session answers only commands it held or was offered, and keeps none it has answered but the one it gave up |
| Scheduler.StepGivesUp | shiitake-worker/src/client.rs:1004-1043 | the command it gives up is its running stateful one |
| Scheduler.StepHistory | shiitake-worker/src/client.rs:916-1075 | a command starts, is spoiled or withdrawn at most once, finishes at most once after starting, and what it was started with never changes |
| Scheduler.LoopAnswers | shiitake-worker/src/client.rs:916-1079 | in every arm the loop writes at most one frame, an answer, exactly when and with exactly the fields spelled out for that arm, and ends exactly when and as spelled out |
| Scheduler.StartIs | shiitake-worker/src/client.rs:902-914 | a session starts with its directory and variables, TERM set and HOME too for an account with a home, nothing else changed, and nothing queued or running |
| Scheduler.SessionScheduler.constructor | shiitake-worker/src/client.rs:896-914 | the loop's variables start as the session's directory, its variables with TERM and, for a named account, HOME, every other name as it was, and its identity |
| Scheduler.SessionScheduler.AdmitQueued | shiitake-worker/src/client.rs:916-972 | the admission loop over the object's fields is the admission step |
| Scheduler.SessionScheduler.OnSessionRun | shiitake-worker/src/client.rs:1054-1065 | a command joins the back of the queue, or is refused with an uncancelled error when its id is held or 32 are |
| Scheduler.SessionScheduler.OnCancel | shiitake-worker/src/client.rs:1066-1075 | a running command is flagged, a queued one taken out and answered as cancelled before start, an unknown one ignored |
| Scheduler.SessionScheduler.OnJobResult | shiitake-worker/src/client.rs:1004-1028 | the job's own result is sent as it is; a stateful one first installs its snapshot and lifts the barrier; with an unreadable snapshot the result goes out with that error alone changed and the session ends; a failed send loses it |
| Scheduler.SessionScheduler.OnJobAbort | shiitake-worker/src/client.rs:1032-1043 | the stuck command is answered as cancelled with an error and no exit data, and the session ends with that error |
| Scheduler.SessionScheduler.Leave | shiitake-worker/src/client.rs:974-975 | close, end of file and loss end the loop with nothing answered |
| Reports.OneReportPerOpen | shiitake-worker/src/client.rs:864-890 | over any run of a worker, every session it opens is acknowledged once and reported over at most once, in order; only the last may be unreported, while under way or when the worker is gone |
| ServerPool.RegisterInv | shiitake-server/src/pool/mod.rs:1258-1278 | registering a worker keeps the pool invariant |
| ServerPool.CreateInv | shiitake-server/src/pool/mod.rs:592-626 | reserving an idle worker for a fresh session keeps it |
| ServerPool.ReadyInv | shiitake-server/src/pool/mod.rs:1408-1430 | the open acknowledgement keeps it |
| ServerPool.TouchInv | shiitake-server/src/pool/mod.rs:540-583 | status reads and the create reply keep it |
| ServerPool.SubmitInv | shiitake-server/src/pool/mod.rs:838-869 | registering a command keeps it: the count covers it and no terminal is attached if it is stateful |
| ServerPool.CompleteInv | shiitake-server/src/pool/mod.rs:1535-1554 | a result keeps it |
| ServerPool.AttachInv | shiitake-server/src/pool/mod.rs:909-947 | attaching and detaching a terminal keep it |
| ServerPool.CloseInv | shiitake-server/src/pool/mod.rs:684-722 | marking a session Closing keeps it |
| ServerPool.ClosedInv | shiitake-server/src/pool/mod.rs:1439-1485 | a report from the session's worker keeps it: the session ends and the worker is idle, or gone, but not owned |
| ServerPool.TakeInv | shiitake-server/src/pool/mod.rs:1637-1649 | the first half of a drop keeps it |
| ServerPool.RestInv | shiitake-server/src/pool/mod.rs:1654-1689 | the second half of a drop keeps it |
| ServerPool.ForgetInv | shiitake-server/src/pool/mod.rs:1843-1848 | forgetting finished sessions keeps it |
| PoolObject.WorkerPool.RegisterWorker | shiitake-server/src/pool/mod.rs:1258-1278 | a worker joins the back of the idle queue, unless its id is still registered |
| PoolObject.WorkerPool.CreateSession | shiitake-server/src/pool/mod.rs:592-626 | the first idle worker of the profile is taken and the record opened, or the request refused and nothing changed |
| PoolObject.WorkerPool.OnSessionReady | shiitake-server/src/pool/mod.rs:1408-1430 | only the session's own worker moves an Opening record to Active or Failed |
| PoolObject.WorkerPool.CreatedSnapshot | shiitake-server/src/pool/mod.rs:559-583 | creation is confirmed only for an active session that still owns a registered worker |
| PoolObject.WorkerPool.SessionSnapshot | shiitake-server/src/pool/mod.rs:540-557 | reading an active session counts as activity and changes nothing else |
| PoolObject.WorkerPool.CheckSession | shiitake-server/src/pool/mod.rs:776-793 | the submitter's first look admits exactly the sessions the registration would |
| PoolObject.WorkerPool.RegisterCommand | shiitake-server/src/pool/mod.rs:838-869 | the command enters flight and gets a running handle, the count and activity move, or it is refused and nothing changes |
| PoolObject.WorkerPool.OnResult | shiitake-server/src/pool/mod.rs:1535-1556 | the command leaves flight, the count drops by one if it was stateful, never below zero |
| PoolObject.WorkerPool.AttachTerminal | shiitake-server/src/pool/mod.rs:909-935 | a terminal is attached only to an active session with none attached and no stateful command counted |
| PoolObject.WorkerPool.DetachTerminal | shiitake-server/src/pool/mod.rs:937-947 | only the terminal that is attached is detached |
| PoolObject.WorkerPool.CloseSession | shiitake-server/src/pool/mod.rs:684-722 | with the sweeper's gate nothing changes unless the session is active, without terminal, with nothing in flight and unused for longer than the limit; an ended session stays; otherwise it is Closing, the first closer sends and every closer waits |
| PoolObject.WorkerPool.OnSessionClosed | shiitake-server/src/pool/mod.rs:1432-1485 | the record ends, the worker is released and queued if reusable, the session's commands leave flight, cancelled only if it was Closing and no error came, and its closers are handed over |
| PoolObject.WorkerPool.RemoveCommands | shiitake-server/src/pool/mod.rs:1639-1648 | exactly the named commands leave flight |
| PoolObject.WorkerPool.TakeCommands | shiitake-server/src/pool/mod.rs:1637-1649 | exactly the worker's commands leave flight |
| PoolObject.WorkerPool.ForgetWorker | shiitake-server/src/pool/mod.rs:1654-1689 | the worker leaves queue, owners and registry in place, and its session fails |
| PoolObject.WorkerPool.SettleHandle | shiitake-server/src/pool/mod.rs:1559-1580 | a running handle reads the exit code, signal and cancelled flag of its result, and the cause its fields and the spool flag give, or what its close or drop gives; any other handle is left as it is |
| PoolObject.WorkerPool.RequestCancel | shiitake-server/src/pool/mod.rs:1147-1168 | the first cancel of a running command marks it and is sent on; every other changes nothing |
| PoolObject.WorkerPool.ForgetFinished | shiitake-server/src/pool/mod.rs:1843-1848 | sessions finished longer ago than the limit are forgotten, no others |
| PoolObject.WorkerPool.Snapshot | shiitake-server/src/pool/mod.rs:489-496 | idle is the length of the queue; idle and busy together never exceed the registered workers, and busy are just the owned ones, when every command in flight is on its session's worker, as `Drops.NothingStranded` shows it is |
| ServerPool.SnapshotBound | shiitake-server/src/pool/mod.rs:489-496 | the bound, and that idle counts the registered workers in the queue, for every state of the pool invariant |
| Link.ReceiveInv | shiitake-worker/src/client.rs:496-541 | reading any frame, in or between sessions, keeps the accounts of a connection |
| Link.WorkInv | shiitake-worker/src/client.rs:915-1104 | so does every step of the session loop |
| Link.ReportInv | shiitake-worker/src/client.rs:453-490 | so does the report after the reset, sent or not |
| Link.DeliverResultInv | shiitake-server/src/pool/mod.rs:1528-1554 | a result read by the server is of a command in flight for that worker's session, and was its last trace |
| Composition.NextPreserves | shiitake-server/src/pool/mod.rs:585-1751 | every step of every operation, at the server or at a worker, keeps the system invariant |
| Composition.Reachable | shiitake-server/src/pool/mod.rs:585-1751 | it holds after any run, under any interleaving |
| Guarantees.Conservation | shiitake-server/src/pool/mod.rs:838-904 | while a worker serves, the session's commands in flight are, each once, the one about to be written, those on the wire, those queued or running, and those whose answer is on its way |
| Guarantees.NeverTwiceNeverLost | shiitake-server/src/pool/mod.rs:1528-1554 | so a command in flight is in exactly one place and any other in none |
| Guarantees.LeftAccounted | shiitake-worker/src/client.rs:1106-1135 | once a worker has left its loop, what it holds unanswered, what is on the wire and what it has answered are still, each at most once, commands in flight |
| Guarantees.LeftHolds | shiitake-worker/src/client.rs:1106-1135 | of the commands no longer in flight, such a worker holds exactly the one it gave up |
| Guarantees.MutualExclusion | shiitake-server/src/pool/mod.rs:909-935 | while a terminal is attached no stateful command of the session is in flight, about to reach its worker, on the wire, queued or running in the worker's loop; and a worker that has left its loop holds one if and only if it gave that one up as stuck or unreadable |
| Heard.TerminalHeard | shiitake-server/src/pool/mod.rs:909-935 | while a terminal is attached the count is zero and every stateful command the session ever registered has been answered: none is in flight and none was taken by a drop |
| StuckCommand.TerminalBesideStuck | shiitake-worker/src/client.rs:1032-1043 | from any state in which a session runs its only stateful command, giving it up, reading the answer and attaching a terminal leaves terminal and command side by side |
| StuckCommand.StuckRun | shiitake-worker/src/client.rs:1032-1043 | a run from the start in which that happens |
| Guarantees.Ownership | shiitake-server/src/pool/mod.rs:592-626 | no worker is both idle and owned or queued twice, sessions that hold a worker are the ones it is named for, and idle plus owned never exceed the registered |
| Guarantees.IdleReclaim | shiitake-server/src/pool/mod.rs:684-722 | the sweeper's close changes nothing if and only if someone holds the send lock or the session is unknown, not active, under a terminal, in use or last used within the limit; the session it takes has no command in flight, on the wire or unanswered at its worker |
| Activity.LastActivity | shiitake-server/src/pool/mod.rs:540-583 | after any run, the time a record keeps is that of the last step that used the session: its creation, the create reply, a status read, a registered command, a result, an attach or a detach |
| Activity.ReclaimedByUse | shiitake-server/src/pool/mod.rs:686-705 | so the sweeper takes a session exactly if it is active, unlocked, without terminal or command in flight, and that last use was longer ago than the limit |
| Activity.InputsKept | shiitake-server/src/pool/mod.rs:606-625 | after any run, a session that holds a worker has the input of the request that created it |
| SessionStates.StateDiagram | shiitake-server/src/pool/mod.rs:1408-1455 | after any run and for every step, a session's state is exactly what that step makes it: acknowledged, closed by a closer or the sweeper, ended by its own worker's report, failed by a drop, or as before |
| Frames.FrameOrigins | shiitake-worker/src/client.rs:864-1104 | after any run, each frame on its way to the server was written by that worker, with the fields its reason gives, and each frame on its way to a worker goes back to a create, submit, cancel or close the server took |
| Frames.ResultsAreReports | shiitake-worker/src/client.rs:1004-1043 | each result on its way is, field for field, what a job of that worker reported, its error replaced only for a stateful command without readable shell state, or one of the loop's own answers, without exit data |
| Frames.WrittenUp | shiitake-worker/src/client.rs:864-1104 | every frame a worker has reason to write is written, behind the others |
| Frames.WrittenDown | shiitake-server/src/pool/mod.rs:884-904 | every frame the server has reason to write is written to a connection that stands |
| Frames.RequestsTaken | shiitake-server/src/pool/mod.rs:759-793 | a submission let through takes the send lock for the session's worker; a cancel let through marks the command |
| Frames.CancelArrives | shiitake-server/src/pool/mod.rs:1147-1168 | a cancel asked for a command in flight is written to the worker its session owns |
| Openings.FirstCommands | shiitake-worker/src/client.rs:902-927 | after any run, the commands of a session were given the identity it was created with and, before any stateful one, the directory and variables it was created with, with TERM and HOME |
| Openings.CommandsSubmitted | shiitake-server/src/pool/mod.rs:873-889 | each command a worker accepted was submitted to that session and is started with the text it was submitted with; a withdrawn or flagged one had been asked to be cancelled |
| Openings.FrameHeeded | shiitake-worker/src/client.rs:1053-1079 | reading its next frame, a worker starts the session, accepts or refuses the command, flags or withdraws the cancelled one, or leaves the loop, as the frame says |
| Openings.ReportsTruthful | shiitake-worker/src/client.rs:453-473 | a report on its way says why the loop ended, that the shell did not start or that the reset failed, and reusable exactly if the worker was reset and is not about to exit |
| Outcomes.HandleStep | shiitake-server/src/pool/mod.rs:1491-1580 | every step keeps the accounting of handles and leaves settled outcomes alone |
| Outcomes.OutcomeAccounting | shiitake-server/src/pool/mod.rs:1559-1580 | a handle says Running exactly when its command is in flight or its one settlement is due, never both; a settled one's fields agree |
| Outcomes.OutcomeOnce | shiitake-server/src/pool/mod.rs:1491-1511 | once a handle has an outcome, its status, cause, exit data and finish time never change, and its id is not handed out again |
| Causes.CommandOutcome | shiitake-server/src/pool/mod.rs:1559-1580 | after any run, a settled handle reads what one result, close or drop of its command gives, field by field; a close means cancelled only for a session that was Closing and reported no error |
| Causes.ExitsAreReports | shiitake-server/src/pool/mod.rs:1566-1578 | a handle with an exit code, and any that is Completed, has the exit code, signal and cancelled flag that a job running that command reported |
| Outcomes.NeverAgain | shiitake-server/src/pool/mod.rs:1537-1554 | a command that has left flight is never in flight, on the wire or in a worker's loop again, and a worker that has left its loop holds it if and only if that is the command it gave up |
| SessionRuns.SessionsGoForward | shiitake-server/src/pool/mod.rs:1439-1485 | a session keeps its worker, its state never goes back, and a forgotten one does not return |
| SessionRuns.WireOrder | shiitake-server/src/pool/mod.rs:670-742 | what submit and close write for a session is some commands and then at most one close, under any interleaving, and after it no one may write |
| SessionRuns.ClosersWoken | shiitake-server/src/pool/mod.rs:711-747 | over any run the closers that waited are, in order, those woken and those still waiting, and they wait only while Closing |
| Drops.CountExact | shiitake-server/src/pool/mod.rs:1537-1544 | the stateful count is never below the stateful commands in flight, and equal to them unless the session is over or its worker half dropped |
| Drops.NothingStranded | shiitake-server/src/pool/mod.rs:1637-1751 | if no command is registered on a worker half dropped, every running handle is in flight on its session's registered worker or about to be settled, and idle plus busy never exceed the registered |
| Stranding.StrandedExactly | shiitake-server/src/pool/mod.rs:1637-1689 | after both halves of a drop the commands left in flight on the worker are exactly those registered on it between the halves, so it strands one if and only if one was |
| Drops.StrandedRuns | shiitake-server/src/pool/mod.rs:1637-1689 | a stranded command says Running until a worker of the same id is dropped again |
| Drops.RaceStrands | shiitake-server/src/pool/mod.rs:838-869 | a run in which that happens |
| LeakedWorker.ReportFrees | shiitake-server/src/pool/mod.rs:1439-1474 | a worker whose reusable report is read becomes idle if and only if the server still knows the session, and stays owned otherwise |
| LeakedWorker.LeakLasts | shiitake-server/src/pool/mod.rs:1441-1446 | it then stays owned and never idle until it is dropped |
| LeakedWorker.LeakRun | shiitake-server/src/pool/mod.rs:1843-1848 | a run in which that happens: a failed open is swept before the report |
| RunsOnce.AcceptedOnce | shiitake-worker/src/client.rs:1054-1065 | in no run does a worker accept a command twice, nor is an accepted one still to come |
| IdleOrder.OrderedBySince | shiitake-server/src/pool/mod.rs:1468-1474 | after any run a worker ahead in the idle queue became idle earlier |
| IdleOrder.LeastRecentlyIdle | shiitake-server/src/pool/mod.rs:594-604 | a new session gets the longest-idle worker of its profile; it is refused exactly when the profile has no worker or no idle one |
| Lifecycle.CleanSandbox | shiitake-worker/src/client.rs:337-491 | over every run of the process a unit finds the sandbox dirty exactly when the unit before could not be reported and its reset failed or was skipped |
| Lifecycle.LossIsFinal | shiitake-worker/src/client.rs:214-241 | losing the server while a unit runs ends the process, and only that ends it so |
| Lifecycle.FailedResetIsFinal | shiitake-worker/src/client.rs:485-490 | a reported unit whose reset failed is the last, whatever the quota |
| Lifecycle.ProcessEnds | shiitake-worker/src/client.rs:214-241 | the process ends, and ends as it does, if and only if some unit lost the server, or was reported with the quota reached or after a failed reset |
| Lifecycle.AllServed | shiitake-worker/src/client.rs:214-241 | the process takes in order the work its connections bring up to each one's end, and leaves some only if it ends: after a refused dial or a connection that closed or failed it dials again |
| Lifecycle.NoQuotaEnds | shiitake-worker/src/client.rs:211-241 | without a quota it ends if and only if a unit lost the server or was reported after a failed reset |
| Lifecycle.NoQuotaWitness | shiitake-worker/src/client.rs:211-241 | a run of each |
| Lifecycle.QuotaEnds | shiitake-worker/src/client.rs:383-384 | past the quota a unit follows only an unsent report; with all reports sent the process ends within the quota, and by it exactly at it; without a quota it never ends by it |
| Lifecycle.DirtyStart | shiitake-worker/src/client.rs:469-472 | a failed reset with an unsent report does give the next unit a dirty sandbox |
| Lifecycle.Worker.ServeSession | shiitake-worker/src/client.rs:337-491 | the loop over one connection's work ends the connection and moves the counter as the specification says |
| Lifecycle.Worker.ServeForever | shiitake-worker/src/client.rs:214-241 | the reconnect loop ends the process exactly on the three final ends |
| StatefulWatch.WatchStatefulJob | shiitake-worker/src/client.rs:1288-1311 | the polling loop reports what the specification says, and so exactly what the first completed poll, the first cancel and the clock readings between them call for |
| StatefulWatch.OneReport | shiitake-worker/src/client.rs:1288-1326 | at most one interrupt, only after a cancel, then at most one report: the first completed status, cancelled exactly if a cancel was seen before, or an abort more than two seconds after the interrupt and before any completion |
| StatefulWatch.WatchExactly | shiitake-worker/src/client.rs:1288-1326 | what a watch says, in closed form over the polls: the completed status is reported unless an interrupt goes unheard or a reading more than two seconds after it comes first, a cancel before completion is followed by an interrupt, a late reading by an abort |
| ShellState.ReadShellState | shiitake-worker/src/client.rs:1248-1260 | the loop over the entries reads directory and environment, or fails, as specified |
| ShellState.SnapshotRoundTrip | shiitake-worker/src/client.rs:1248-1260 | any directory and any exportable variables written by the shell are read back, equals signs and newlines in values included |
| ShellState.ReadFails | shiitake-worker/src/client.rs:1253-1254 | reading fails exactly when some entry is not UTF-8 |
| Marker.ChunkingIrrelevant | shiitake-worker/src/client.rs:815-839 | for every cut of the stream into reads, what is passed on plus what is held is the stream without its first marker, completion is signalled exactly when the marker is complete, and less than a marker is held |
| Marker.SameStream | shiitake-worker/src/client.rs:815-839 | two cuts of the same stream pass on the same bytes and hold the same |
| Marker.FeedFollows | shiitake-worker/src/client.rs:816-838 | one read keeps that relation to the whole stream |
| Marker.ShellCompletion.FeedBytes | shiitake-worker/src/client.rs:816-838 | the object's method does that read in place |
| Utf8.DecodeEncode | shiitake-worker-api/src/lib.rs:298 | every text comes back from its bytes |
| Utf8.EncodeDecode | shiitake-worker-api/src/lib.rs:298 | accepted bytes are the bytes of the text they decode to |
| Chunk.TryFrom | shiitake-worker-api/src/lib.rs:259-270 | a byte names a stream exactly if it is that stream's number |
| Chunk.Encode | shiitake-worker-api/src/lib.rs:279-287 | the buffer is the stream's number, the id's length high byte first, the id and the payload, and decodes to the chunk |
| Chunk.RoundTrip | shiitake-worker-api/src/lib.rs:279-305 | decoding undoes encoding for every stream, payload and id of at most 65535 bytes |
| Chunk.Canonical | shiitake-worker-api/src/lib.rs:289-305 | encoding undoes decoding on every accepted frame |
| Chunk.AcceptsEncodings | shiitake-worker-api/src/lib.rs:289-305 | decoding accepts exactly the encodings, and no two chunks share one |
| PublicId.EncodePublicId | shiitake-server/src/http/sessions.rs:74-86 | the loop over the shifts writes the sixteen digits |
| PublicId.DigitsReadBack | shiitake-server/src/http/sessions.rs:74-86 | the digits read back as the 80-bit value of the ten bytes |
| PublicId.Injective | shiitake-server/src/http/sessions.rs:74-86 | two ids are equal exactly if kind and bytes are |
| Capture.SanitizeFixes | shiitake-worker-api/src/capture.rs:51-55 | sanitizing leaves only plain characters and changes nothing exactly if there were no others |
| Capture.SharedDir | shiitake-worker-api/src/capture.rs:41-43 | two ids share a directory exactly if they sanitize alike |
| Capture.OwnDir | shiitake-server/src/pool/mod.rs:373-379 | for accepted ids the directory made is the one opened by the raw id, and is the id's own |
| Capture.UntestedIdsCollide | shiitake-worker-api/src/capture.rs:51-55 | without the test two ids can share a directory |
| Capture.GeneratedIds | shiitake-server/src/pool/mod.rs:373-379 | generated ids are accepted and never share a directory |
| ShellQuote.OneWord | shiitake-worker/src/client.rs:1184-1186 | the quoted path is read as one word, ending where the quoting ends, that is the path after quote removal |
| ShellQuote.QuotedInjective | shiitake-worker/src/client.rs:1184-1186 | different paths are quoted differently |
| Passwd.PasswdWithout | shiitake-worker/src/account.rs:177-192 | the loop over the lines leaves out exactly those with one of the prefixes |
| Passwd.LineFields | shiitake-worker/src/account.rs:161-163 | an entry's colon-separated fields are the name, x, the uid, the gid, the comment, the home and /bin/bash |
| Account.CleanupUndoes | shiitake-worker/src/account.rs:120-149 | after any calls of ensure, cleanup restores the file byte for byte exactly if nothing was appended, or the file was empty or newline-terminated and had no CRLF |
| Account.CleanupLoses | shiitake-worker/src/account.rs:177-192 | a file without final newline whose appended entry is not taken out again |
| Account.EnsureTwice | shiitake-worker/src/account.rs:63-100 | naming an account a second time changes nothing if and only if the first time changed nothing, the file was empty or newline-terminated, or its last line leaves the new entry's uid in the third field |
| Account.NamedTwice | shiitake-worker/src/account.rs:63-100 | a file on which the second call appends a second entry |
| Account.EnsureWrites | shiitake-worker/src/account.rs:46-100 | an account is named exactly if its name is safe and neither name nor uid is in the file; then one line with those fields is appended, its home the one the session gets, or / |
| Account.AccountFile.EnsureNamed | shiitake-worker/src/account.rs:46-100 | appends one entry and one ledger line, or leaves both alone |
| Account.AccountFile.CleanUp | shiitake-worker/src/account.rs:120-149 | drains the ledger and rewrites the file without its entries |

## Left out

- Sockets, HTTP, JSON, authentication, ping and lease timers: frames are values on two queues, a lapse or a failed send is a step.
- Files, processes, signals, cgroups and the Bash snippet: a command is an arbitrary effect on the shell state, a reset a success or a failure, the snapshot files what the snippet writes.
- `tail_capture` and the spool: output bytes are not modelled; a spool failure is a flag on the handle.
- The OOM probe, telemetry and metrics: the probe is an arbitrary boolean.
- The legacy `dispatch` and pinned PTY paths: the pool invariants are those of the session API.
- PtyResize and terminal output: they touch none of the modelled state. Terminal input is an arbitrary change of the Bash process (`Sequential.TerminalInput`); that only the attached terminal sends it is not modelled.
- The tokio scheduler: an operation is its critical sections, and the send lock is a holder per session.
- Guarantees.Conservation: is stated while the worker is in its session loop; once the loop has been left the answers on their way are some of the commands in flight, not all, because the rest are settled by the report or the drop (`Outcomes.OutcomeAccounting`).
- SessionRuns.WireOrder: is about the frames of submit and close, including writes that fail; a create that times out writes a SessionClose of its own outside the send lock.
- SessionRuns.ClosersWoken: counts a closer whose own write failed among those that wait.
- Guarantees.MutualExclusion: speaks of the workers whose connection stands; of one that has been cut off, `Heard.TerminalHeard` says that every stateful command it was sent for the session has been answered, but what it still runs is not followed.
- Drops.NothingStranded: needs that no command is registered on a worker half dropped, which `Stranding.StrandedExactly` shows to be necessary.
- Stranding.StrandedExactly: is about the drop of a registered worker with no second drop of it in between.
- Account.CleanupUndoes: does not model the home directories, which are created and removed beside the file, nor failed file operations.
- Lifecycle.CleanSandbox: a reset either cleans the sandbox or fails; what it cleans is not modelled.
- ShellQuote.OneWord: paths are text; a path that is not UTF-8 is first made so, with loss.
- Capture.OwnDir: paths are joined as text; the file system's own aliases are not modelled.
