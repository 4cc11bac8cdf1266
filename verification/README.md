# trexec, modelled in Dafny

trexec starts a command in its own process group, watches a context, and, when the context is
cancelled, escalates from a graceful signal over a grace period to a forced kill with a five-second
deadline. Around this core sit a worker pool that restarts commands with capped exponential backoff,
and a live-reload loop that restarts a command when watched files change. This project models these
parts and proves what they guarantee over every interleaving.

`dafny verify dfyconfig.toml` checks the whole project.

## How it is modelled

A concurrent component is a step function, from a state and an atomic action to the next state, or to
nothing where the action cannot happen. A run is a sequence of actions, so a lemma about all sequences
of actions speaks about all interleavings. Whatever the kernel, the clock, the file system, the owner
of the context, the random draw or a `select` with several ready branches decides is part of the action.

| file | what it models |
|---|---|
| `Common.dfy` | options, bytes, flattening, runs of a step function |
| `Lifecycle.dfy` | the states of a command and their transition table |
| `Pipes.dfy` | the I/O copiers, the forced close, the shared output buffer; class `PipeManager` |
| `RunnerSystem.dfy` | the runner protocol: `Start`, `Wait` and the shutdown escalation, the reaper, the poller, the copiers, cancellation, the clock |
| `RunnerInvariants.dfy` | the invariants of that protocol, and that every action keeps them |
| `RunnerTheorems.dfy` | what follows for every run |
| `RunnerTiming.dfy` | the time bounds of the escalation and of the cleanup |
| `RunnerDeadlines.dfy` | what may not happen before its deadline: forced closes, a result without the child's exit |
| `RunnerHistory.dfy` | that exit, counts and durations reported are those of the run |
| `RunnerEdgeRuns.dfy` | runs that show where the shutdown guarantees end |
| `Runner.dfy` | class `Runner`: the code of `Start`, `Wait`, `CombinedOutput`, proved to follow the protocol |
| `ProcStat.dfy` | `/proc/<pid>/stat` parsing, the search for group members, class `UnixProcessGroup` |
| `Backoff.dfy`, `Worker.dfy` | the backoff loop, the restart loop |
| `WorkerSteps.dfy`, `Supervisor.dfy` | the restart loop statement by statement, refining the former; the worker pool |
| `Scan.dfy`, `Diff.dfy` | the filtered walk over the watched trees, the comparison of two scans |
| `Live.dfy` | watcher, channel and reloader as one step system |
| `Watcher.dfy`, `Reloader.dfy` | the classes `Watcher` and `Reloader`, proved to follow that system |

The classes keep the fields of the source and update them in place. `Valid` of `Runner`, `Watcher` and
`Reloader` says that the object is in the state its step system reaches by the actions logged so far.
Between two atomic actions of the modelled goroutine the method `Interfere` lets the other parties take
any finite number of theirs. A method that can block says so (`None`, `Blocked`, or the flag its
comment names) only when it is blocked: nothing that its `select` waits for is ready. `Stuck`,
`SendStuck` and `RunStuck` spell this out and are proved to hold exactly when the goroutine has no next
action. What the kernel answers to a call, whether a workload starts, what a tick sees and which ready
branch the poll loop's `select` prefers are parameters of the methods, and the contracts say what each
answer leads to. Loops without an end take one such input for each turn to observe, and have made that
many turns unless they returned or wait.

## Where the code and its documentation differ

- `state.go:8-12` documents every forced kill as Stopping, Killing, Done. Without a grace period the
  code asks for Running to Killing (`runner.go:328`), which the table refuses, so the history is
  Running, Done: `RunnerTheorems.EveryRunFollowsTheTable`.
- `result.go:43` promises an `*ExitError` for every cancellation-related kill, `result.go:16` the exit
  code -1. If the kill deadline passes before the child is reaped, `buildResult` reports exit code 0
  and no error. `RunnerHistory.ResultReportsTheChild` says when the promise holds;
  `RunnerEdgeRuns.HungChildReportsSuccess` gives a failing run for every configuration.
- The escalation has no time bound on the path where the graceful signal finds the group gone
  (`runner.go:354-358`): `RunnerTiming.CancellationIsBounded` excludes it, and
  `RunnerEdgeRuns.VanishedGroupHasNoDeadline` shows that no bound holds there.
- `supervisor/backoff.go:19` speaks of a variation between 0 and Jitter times the duration; the code
  also shortens delays: `Backoff.DefaultFallsBelow` gives a draw with the default configuration,
  `Backoff.FallsBelowIff` says for every configuration and attempt when some draw does, and
  `Backoff.DrawLowersIff` which draws lower the value.
- `Backoff.Duration` can leave the range from Min to Max: on the first attempt with a Min that is not
  positive, and when Min exceeds Max. `Backoff.InRangeIff` gives the exact condition.

## Model

| member | source | states |
|---|---|---|
| Lifecycle.CompleteLifecycles | state.go:58-76 | a history from Created to Done takes only steps of the table if and only if it is one of the three documented lifecycles or the failed start |
| Lifecycle.EndsAtDone | state.go:58-76 | Done is terminal on every path of the table |
| Pipes.PipeManager.StartCopy | pipe.go:37-52 | the new pipe is tracked, its copier counted, and nothing else changes |
| Pipes.PipeManager.ForceClose | pipe.go:79-85 | every tracked read end is closed, and nothing else changes |
| Pipes.PipeManager.Wait | pipe.go:57-75 | in both branches, and even after an earlier forced close, it returns only when every copier has ended; then every destination holds a prefix of its stream, and all of it where no error was recorded; it is blocked only while some copier has not ended, and after a timeout all read ends are closed |
| Pipes.StepKeepsInv | pipe.go:37-52 | under any schedule of the copiers and the child, each destination holds exactly what its copier took and wrote, errors are recorded once, and the wait group counts the copiers not ended |
| Pipes.LiveZero | pipe.go:42-44 | the wait group is zero exactly when every copier has ended |
| Pipes.EndedIsComplete | pipe.go:37-75 | when all copiers have ended, an output whose copier recorded no error holds its whole stream up to end of file |
| Pipes.EndedStays | pipe.go:57-75 | once all copiers have ended, no byte is written and no error recorded any more |
| Pipes.ForcedCloseDrains | pipe.go:65-85 | after the forced close the copiers take at most four actions each, some copier can always act until all have ended, and they have ended exactly when the wait group is zero: wait cannot hang |
| Pipes.CombinedOutputInterleaves | pipe.go:97-112 | at every moment the shared buffer is an order-preserving interleaving of a prefix of stdout and a prefix of stderr; after the copiers ended, of the whole of each stream whose copier recorded no error |
| RunnerInvariants.StepKeepsInv | runner.go:65-385 | every action of any party keeps the invariants on history, signals, verdict, result, time, pipes and snapshots |
| RunnerTheorems.EveryRunFollowsTheTable | runner.go:65-100 | in every interleaving the states visited form a path of the table although forceTransition never consults it; a failed Start ends in Done with the group closed and no signal sent; and the returned result fixes history and signals, with Cancelled exactly when one of graceful and force-killed holds |
| RunnerTheorems.EscalationWaitsForTheGracePeriod | runner.go:340-372 | at every moment of every interleaving at most one graceful signal and at most one terminate were sent, with a positive grace period in this order and at least the full period apart |
| RunnerTheorems.SnapshotsFollowTheLifecycle | runner.go:222-269 | snapshot states never go back, Done is reported at most once, as the last snapshot, by a poller that has stopped, and every snapshot of a running command, a lone one included, counts at least one active process |
| RunnerTheorems.PollerStopsAfterDone | runner.go:222-243 | once the state is Done the poller takes at most three more actions, and its next tick stops it even if the child is never reaped |
| RunnerTheorems.NothingHappensAfterReturn | runner.go:286-303 | once Wait has returned, no action of any party changes result, history, signals, captured bytes or copy errors |
| RunnerTheorems.ReturnedOutputInterleaves | runner.go:474-491 | when Wait has returned with both outputs captured, the shared buffer interleaves a prefix of each stream, the whole where no copy error was recorded |
| RunnerHistory.ResultReportsTheChild | runner.go:377-423 | a returned result carries an error if and only if cmd.Wait had reported one when it was built, and then reports that exit; a result built before is a force-killed one with exit code 0 and no error, built five seconds after terminate or later |
| RunnerHistory.SnapshotsCarryTheCounts | runner.go:246-269 | each snapshot carries the count of live processes the poller was told, one instead of none for a running command |
| RunnerHistory.EachWakeTakesOneSnapshot | runner.go:230-242 | a waiting poller takes one snapshot of the current state at a tick, unless that is Done, and one last when the child is reaped |
| RunnerHistory.DurationIsTheTimeItRan | runner.go:177-301 | the duration of a returned result is the time that passed from the start of the process |
| RunnerDeadlines.UnreapedResultWaitsForTheDeadline | runner.go:332-383 | a result built without the child's exit, or after the kill deadline, comes five seconds after terminate or later |
| RunnerDeadlines.ReadEndsCloseWhenDue | runner.go:339-342 | read ends are closed by force, and then all of them, only five seconds after terminate, or the I/O timeout after the result was built; after either they stay closed |
| RunnerDeadlines.CancelledOnlyByTheContext | runner.go:307-317 | a cancelled result needs a context that was cancelled |
| RunnerTheorems.StuckIffNoAction | runner.go:286-385 | a goroutine inside Start or Wait has no next action, whatever the kernel answers and a select chooses, exactly when it waits and no channel or timer it waits for is ready |
| RunnerTiming.CancellationIsBounded | runner.go:320-385 | when due timers are served before the clock moves on, the result of a cancelled command is built within the grace period plus five seconds, unless the graceful signal found the group gone |
| RunnerTiming.CleanupIsBounded | pipe.go:57-75 | when due timers are served before the clock moves on, Wait stops waiting for the copiers within the I/O timeout of building the result; by then they have all ended, or it closes every read end |
| RunnerEdgeRuns.HungChildReportsSuccess | runner.go:377-420 | for every configuration some run force-kills the command and reports exit code 0 and no error |
| RunnerEdgeRuns.VanishedGroupHasNoDeadline | runner.go:354-358 | for every positive grace period and every delay, some run in which the signal found the group gone builds its result exactly that late |
| Runner.Runner.Transition | runner.go:65-86 | the state moves, and the history grows, exactly when the state is the expected one and the table has the edge, which is also what the answer says |
| Runner.Runner.ForceTransition | runner.go:88-100 | the state and the history take the new state whatever the table says |
| Runner.Runner.Start | runner.go:109-219 | only the first call acts, and succeeds exactly if every step does that it needs for the outputs set; then the reaper waits, the poller runs exactly if metrics are polled, each output has its copier, the history ends in Running and the group is open; otherwise the history is Created, Starting, Done and the group closed; no signal is sent |
| Runner.Runner.Wait | runner.go:277-303 | only the first call acts; when it returns, the state is Done, the group closed, result, history and signals agree, every copier has ended and every output is complete or its copier recorded an error; the PIDs are the latest non-empty list the kernel gave, the duration is that from the start of the process, a result without the child's exit comes five seconds after terminate or later, and a group found gone is never force-killed; it is blocked only while no channel or timer it waits for is ready |
| Runner.Runner.RunLifecycle | runner.go:305-317 | returns the built result, with history, signals and PIDs those of its verdict, cancelled only if the context is done, a full grace period between the graceful signal and terminate, no result without the child's exit before five seconds after terminate, and the cleanup next; blocked only when nothing it waits for is ready |
| Runner.Runner.ShutdownSequence | runner.go:319-385 | the same for the escalation, whose result is always a cancelled one: the order of graceful signal, grace period and terminate is that of the verdict |
| Runner.Runner.AwaitExitOrCancel | runner.go:307-317 | takes the branch of the exit or of the cancellation only when it is ready, and either when both are; blocked exactly when neither is |
| Runner.Runner.BuildResult | runner.go:387-423 | the result carries the given flags, reports the child's exit as recorded so far, -1 for an exit that is no exit status, names the signal exactly for a forced kill, is a success exactly for a clean exit without cancellation, and lists and counts the tracked PIDs, or the living ones if none are tracked |
| Runner.Runner.CombinedOutput | runner.go:474-491 | refuses when an output is set; otherwise it returns nothing only when Start failed or while Wait is blocked, and the bytes it returns interleave prefixes of both streams, whole where no copy error was recorded, and no later action of any party writes to them |
| ProcStat.AtoiOfItoa | group_unix.go:136-153 | formatting a 64-bit integer and parsing it gives it back |
| ProcStat.CutOfFormat | group_unix.go:145-150 | the last closing parenthesis of a stat record is the one that ends the command name, whatever that name contains |
| ProcStat.ParseOfFormat | group_unix.go:145-157 | for every command name, parsing a formatted record recovers its process group |
| ProcStat.FindGroupPIDs | group_unix.go:125-160 | exactly the members of the listing, in its order: the directories named by a positive number whose stat record can be read and names the target group; only the target if the listing fails |
| ProcStat.FoundExactly | group_unix.go:125-160 | for every process table and every command name, only processes of the target group with a directory in the listing are found, and a process whose directory is listed is found if and only if its group is the target |
| ProcStat.AtoiAccepts | group_unix.go:136-153 | a number is an optional sign and at least one digit, within the range of a 64-bit int, and nothing else |
| ProcStat.ParseNeedsTail | group_unix.go:146-149 | a record without a closing parenthesis, or with nothing after it, is skipped |
| ProcStat.MembersAreTheGroup | group_unix.go:125-160 | whatever process table the stat files show, for every command name, and with records that do not parse skipped, the search finds exactly the listed processes of the target group |
| ProcStat.UnixProcessGroup.Activate | group_unix.go:46-53 | the group is that of the started child |
| ProcStat.UnixProcessGroup.Signal | group_unix.go:55-88 | at most one kill, always to the group of the child and never to a single process or the caller's own group, with the signal's own number; ErrProcessDone exactly for a closed group and for ESRCH |
| ProcStat.UnixProcessGroup.Terminate | group_unix.go:90-92 | SIGKILL to the group of the child, while it is open |
| ProcStat.UnixProcessGroup.Close | group_unix.go:94-101 | no group is left to signal |
| ProcStat.UnixProcessGroup.Pids | group_unix.go:103-116 | for an open group exactly its listed members, or its leader if none is found or the listing fails; never empty then, and empty for a closed one; whatever the stat files contain |
| Backoff.Duration | supervisor/backoff.go:44-90 | the loop with its early exit, the jitter and the clamping compute the specified delay for every configuration |
| Backoff.ClosedForm | supervisor/backoff.go:64-73 | for 0 < Min <= Max, Factor > 1 and no jitter the delay is the smaller of Max and Min times the power of Factor, truncated |
| Backoff.Defaults | supervisor/backoff.go:45-62 | a Min or Max that is not positive counts as 100 ms or 10 s, a Factor not above one as 2, every other field as it is; the first attempt waits the raw Min |
| Backoff.JitteredForm | supervisor/backoff.go:64-89 | with jitter the closed form is moved by the share of Jitter times the base that the draw decides, and clamped to Min and Max |
| Backoff.TripledDelays | supervisor/backoff.go:64-73 | Min 100 ms, Max 10 s, Factor 3: 100, 300, 900 ms, 2.7, 8.1 and 10 s |
| Backoff.NonDecreasing | supervisor/backoff.go:44-90 | without jitter a later attempt never waits less, for every configuration |
| Backoff.EventuallyMax | supervisor/backoff.go:64-73 | without jitter, for every configuration, all attempts from some finite one on wait exactly Max, or Min where that exceeds Max |
| Backoff.JitterWindow | supervisor/backoff.go:74-89 | with jitter J the delay lies in Min to Max and within the base times 1 - J to 1 + J, clipped to that range, for every configuration and attempt whose delay lies in the range at all |
| Backoff.InRangeIff | supervisor/backoff.go:44-90 | for every configuration, the delay lies between the effective Min and Max if and only if these are in order and, on the first attempt, the raw Min is positive |
| Backoff.FallsBelowIff | supervisor/backoff.go:44-90 | for every configuration and attempt, some draw makes the delay shorter than without jitter if and only if the attempt is not the first, jitter is on, and the jitter reaches below the whole nanoseconds of a base above Min, or, with Min above Max, from Max beyond Min |
| Backoff.DrawLowersIff | supervisor/backoff.go:74-80 | exactly the draws below one half lower the value |
| Backoff.DefaultFallsBelow | supervisor/backoff.go:24-31 | with the default configuration the second delay can be 180 ms where it is 200 ms without jitter |
| Worker.Worker.Run | supervisor/worker.go:34-127 | on every stream of outcomes, cancellations and draws, the returned result, the restarts, the status fields and the delays are the stated functions of the stream, and attempt is restarts + 1 at each loop head |
| Worker.Worker.ShouldRestart | supervisor/worker.go:91-104 | the switch asks for a restart exactly when the policy wants one for that outcome |
| Worker.StopsExactly | supervisor/worker.go:37-126 | the loop returns in the first round with a cancellation at one of its three places, an outcome the policy does not restart, or a spent budget; it has made a run in that round unless cancelled before, and counted a restart only if cancelled in the backoff |
| Worker.ReturnsLastRun | supervisor/worker.go:39-45 | it returns the last run's result, none if that run did not start, but the latest result when cancelled at its head |
| Worker.LatestResult | supervisor/worker.go:77-83 | the latest result is that of the last run that gave one |
| Worker.DelayOfRestart | supervisor/worker.go:118-119 | the delay before restart k + 1 is the backoff of attempt k + 1: without jitter, the smaller of Max and Min times Factor to the k |
| WorkerSteps.AdvanceTells | supervisor/worker.go:34-127 | every statement of a worker's goroutine, whatever happens in between, is accounted for by the rounds behind it, on which it behaves as the restart loop does |
| WorkerSteps.RefinedResult | supervisor/worker.go:34-127 | what such a goroutine returns is its last run's result, none if that did not start, but the latest result when cancelled at the loop head |
| Worker.NeverRunsOnce | supervisor/worker.go:91-108 | uncancelled, RestartNever runs the command exactly once |
| Worker.AlwaysSpendsTheBudget | supervisor/worker.go:91-119 | uncancelled, RestartAlways with a budget of n > 0 restarts makes exactly n + 1 runs |
| Worker.OnFailureRunsToFirstSuccess | supervisor/worker.go:91-119 | uncancelled, RestartOnFailure stops exactly at the first success or when its budget, if any, is spent |
| Worker.UncancelledReturn | supervisor/worker.go:34-127 | uncancelled, the worker returns the last run's result after one restart less than runs |
| Worker.Halts | supervisor/worker.go:37-126 | the loop returns if and only if some round ends it; with a positive budget always, after at most MaxRestarts restarts |
| Worker.Accounting | supervisor/worker.go:34-127 | cancelled or not and whatever the backoff, restarts is runs or runs - 1, which of the two is decided by where the loop ended, and a positive budget is respected; for 0 < Min <= Max the delays total between Min and Max for each restart |
| Supervisor.WaitGroupZeroIffDrained | supervisor/supervisor.go:52-94 | for every schedule, once Start has returned, the wait group is zero exactly when every worker's loop has ended, none is running, and the result map has exactly the registered names, none of them empty |
| Supervisor.DrainedIsFinal | supervisor/supervisor.go:33-116 | the set of workers is frozen from Start on, and a drained pool stays as it is whatever is called |
| Supervisor.RoundsAreRuns | supervisor/supervisor.go:68-77 | for every schedule, the rounds of a worker hold the outcomes of its runs, each once and in order |
| Supervisor.CancelledWorkersDrain | supervisor/worker.go:37-125 | after a cancellation every statement of a worker brings it strictly closer to its end, and a worker that has not ended can take one, a run of its command counting as one statement |
| Supervisor.StepKeepsInv | supervisor/supervisor.go:33-116 | every action keeps: the wait group counts the live goroutines, a result is published exactly from the store on, a worker is marked running exactly while its command runs, and each worker has behaved in its rounds as the restart loop does |
| Supervisor.Supervisor.Add | supervisor/supervisor.go:33-49 | registers a worker exactly before Start, under a new and non-empty name |
| Supervisor.Supervisor.Start | supervisor/supervisor.go:52-80 | only the first call acts; it launches one goroutine for each registered worker, while those launched already run |
| Supervisor.Supervisor.Wait | supervisor/supervisor.go:84-94 | after Start it returns only when the pool is drained, with one entry for each registered worker, which is what its restart loop returns on the rounds it went through: the last run's result unless cancelled between runs; blocked only while the pool is not drained; before Start at once and with none |
| Supervisor.Supervisor.Stop | supervisor/supervisor.go:97-116 | an error before Start; the first call cancels, returns only when the pool is drained, and is blocked only while it is not; later calls change nothing |
| Supervisor.Supervisor.Status | supervisor/supervisor.go:119-128 | one entry for each worker, running exactly while its command runs |
| Scan.Scan | watcher/watcher.go:158-212 | never fails; the keys are exactly the readable files with an allowed extension such that neither the file nor a directory from the root down, the root included, has an ignored name |
| Scan.Walk | watcher/watcher.go:162-205 | the pruning walk adds exactly the watched files of the tree, however deep, and never fails |
| Scan.OnEntry | watcher/watcher.go:162-205 | skips exactly the ignored directories and adds exactly the readable, allowed, not ignored files |
| Scan.IgnoredMeans | watcher/watcher.go:171-178 | a name is ignored if it is listed, or listed up to case, rune by rune |
| Scan.AllowedMeans | watcher/watcher.go:185-197 | a path is allowed if no extension is configured, or its lower-cased extension agrees with a configured one up to case |
| Scan.ExtIsTail | watcher/watcher.go:186-187 | the extension is the tail from the last dot on, none if a slash follows it |
| Scan.ClearBelow | watcher/watcher.go:167-180 | a path through a directory is free of ignored names exactly when the directory's name is not ignored and the rest is free of them, which is why pruning loses nothing |
| Diff.DetectDiff | watcher/watcher.go:215-231 | in any order of map iteration, each path whose presence or time differs exactly once, and no other |
| Diff.EmptyIffEqual | watcher/watcher.go:215-231 | nothing is reported exactly for equal scans |
| Diff.Symmetric | watcher/watcher.go:215-231 | comparing the other way round finds the same paths |
| Diff.Triangle | watcher/watcher.go:215-231 | what changed over two steps changed in one of them |
| Diff.RefreshRepairs | watcher/watcher.go:215-231 | a mirror that is wrong at most on some paths is right after refreshing these |
| Live.NoChangeIsLost | watcher/watcher.go:100-155 | for every sequence of scans, all differences the ticks found, in order, are the emitted batches, the batch in a send, and the pending paths; only a send interrupted by cancellation loses a batch |
| Live.BatchesWaitForQuiet | watcher/watcher.go:112-150 | the timer is armed exactly when paths are pending, no batch is empty, and none is emitted sooner than the debounce time after the last difference |
| Live.QuietWindow | watcher/watcher.go:112-150 | when a batch is sent, the debounce time has passed since a tick last found a difference; while the loop selects, the pending paths can be taken up exactly when there are some and that time has passed |
| Live.TicksReportDifferences | watcher/watcher.go:131-139 | each tick reports exactly the difference between what it saw and what the tick before it saw |
| Live.MirrorAgrees | watcher/watcher.go:76-155 | a consumer that refreshes only emitted paths holds what the last tick saw after every emission and is wrong in between only on paths not emitted yet |
| Live.EndToEnd | watcher/reloader.go:82-182 | the batches emitted are those consumed followed by the at most 16 in the channel, in order; the i-th OnRestart call carries attempt i and the i-th batch; Start calls are batches consumed plus one except from taking a batch to the next Start |
| Live.OneWorkloadAtATime | watcher/reloader.go:67-183 | at every moment at most the latest workload is unfinished, none when a workload is about to start or Run has returned; the running flag is on exactly until Run returns |
| Live.SendStuckIffNoAction | watcher/watcher.go:123-129 | a poll loop in a send has no next action exactly when the channel is full and the context alive |
| Live.RunStuckIffNoAction | watcher/reloader.go:89-182 | the reloader's loop has no next action exactly when no channel its select waits for is ready |
| Live.StepKeepsInv | watcher/reloader.go:87-182 | every action of watcher, reloader, workload, clock or context keeps the debounce, conservation, mirror, counting and channel invariants |
| Watcher.Watcher.Start | watcher/watcher.go:76-97 | refused only when stopped; otherwise the known files are a complete scan and the system starts from them |
| Watcher.Watcher.PollLoop | watcher/watcher.go:100-155 | each turn takes a branch of the select that is ready, the preferred one if that is, and a tick sees what the trees hold; no other turn is made; so a due timer emits the pending batch, and a done context ends the loop with the channel closed; otherwise it stops only asleep with nothing ready, or blocked in a send on a full channel with the context alive |
| Watcher.Watcher.EmitPending | watcher/watcher.go:112-129 | all pending paths are emitted as one batch, none if none are pending; on a full channel it is blocked while the context is alive, and loses the batch when it is done |
| Watcher.Watcher.Poll | watcher/watcher.go:131-153 | the known files become a complete scan of the trees, the recorded difference lists exactly the paths that changed, these become pending, and the timer is armed or reset exactly if there are any |
| Reloader.Reloader.Run | watcher/reloader.go:67-183 | a second call is refused and changes nothing; every return, the watcher's error included, leaves the running flag off, and no workload unfinished; each turn starts one workload, which fails exactly where it is to, until it has made its turns, returned or is blocked |
| Reloader.Reloader.StartWorkload | watcher/reloader.go:90-116 | adds one workload, running or failed; Run returns exactly for a failed start with the context done, otherwise the loop attends the workload or waits for a change |
| Reloader.Reloader.Attend | watcher/reloader.go:133-181 | goes on, with one more batch and the next attempt, or returns, only after the workload's Wait has returned; blocked only when no channel is ready or that Wait has not returned |
| Reloader.Reloader.AwaitChange | watcher/reloader.go:118-131 | without a workload, goes on with exactly one batch, returns only when the context is done or the channel closed and empty, and is blocked only when there is neither |
| Reloader.Reloader.OnRestart | watcher/reloader.go:161-164 | the hook, if set, gets the current attempt and the batch; the attempt is counted either way |

## Left out

- Windows process groups, pdeathsig, resource limits, the system calls and the inside of os/exec: the group is its five operations with free answers.
- Whether all descendants are dead: a natural or graceful exit only observes the direct child, and closing a Unix group only forgets its number. A workload counts as finished when its `Wait` has returned.
- The order of state-change callbacks: each runs in its own goroutine, so only which states are announced is determined, and that is the history.
- Runner.Runner.Wait: not modelled before Start or after a failed Start, where the source has no pipes to wait for and documents that it must follow a successful Start.
- Supervisor.Supervisor.Wait: not modelled while Start is still launching goroutines, which races with the wait group; the same holds for Supervisor.Supervisor.Stop.
- Worker.Worker.Run: requires a round in which the loop returns, which `Worker.Halts` characterises; a worker that restarts forever is covered up to any round by a stream that cancels there.
- Supervisor.CancelledWorkersDrain: a run of the command is one statement, so that it ends is assumed; `RunnerEdgeRuns.VanishedGroupHasNoDeadline` shows that a cancelled run can take any time.
- RunnerTiming.CleanupIsBounded: how long a copier takes to notice its closed read end, and a destination to accept a write; that it then ends is `Pipes.ForcedCloseDrains`.
- WorkerSteps.AdvanceTells: how long a backoff sleeps is left open in the pool, and so are the exit code and duration in a worker's status; for one loop they are in `Worker.Worker.Run`.
- Backoff.Duration: float64 rounding and the overflow of huge durations; the arithmetic is over the reals.
- ProcStat.ParseOfFormat: white space outside ASCII in the numeric tail of a record, which the kernel does not write.
- Scan.Scan: case folding and path joining are parameters, folding rune by rune; nothing depends on which tables they are.
- Live.BatchesWaitForQuiet: the timer behaves as since Go 1.23, the version go.mod asks for; a reset timer never delivers a stale tick.
- The times at which tickers fire, metrics queries, the splice paths of io.Copy, errors of separate destination writers beyond a failed write.
- Output, StdinPipe, PID, Run alone, copyErrors, option setters, defaults of newWorker, telemetry, cobraexec, string formatting: wrappers that would add only easy members.
- Termination of Wait when the child never ends and is never killed: the bounds are `RunnerTiming.CancellationIsBounded` and `RunnerTiming.CleanupIsBounded`.
