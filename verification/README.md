# Isolyx, verified in Dafny

Isolyx runs jobs in sandboxes: producers put jobs into one queue, a pool of worker threads takes
them out under a scheduling policy, and each worker drives a cloned child process that it may stop
at the end of a time quantum and resume later. This project models that engine and proves what
holds in every run of it.

| file | models |
|---|---|
| Jobs.dfy | jobs, wait statuses, results, verdicts |
| Schedulers.dfy | the deque and the FIFO, priority and MLFQ policies, with their scans and `erase` |
| JobQueue.dfy | the monitor: one method per critical section, with the wait set |
| Levels.dfy | the flat deque as multi-level queues; draining as a stable sort |
| Batch.dfy | one worker serving a queued batch: exact dispatch sequences |
| Engine.dfy | pool, queue and children as one state machine |
| EngineFrames.dfy | the control-flow graph of a worker and what each step leaves alone |
| EngineInvariant.dfy, EngineSteps.dfy | one inductive invariant, and that every step keeps it |
| EngineSafety.dfy | what follows for every reachable state |
| EngineEndings.dfy | results and promises told from a run's labels: how each child died |
| EngineReports.dfy | the multiset of results that a run reports |
| EngineBurst.dfy | a burst of the engine as one run of the polling loop |
| EnginePreemption.dfy | that an expired quantum stops the child and brings the job back |
| Stranding.dfy | when a job can be left without any worker |
| StrandedChild.dfy | when a child cannot be continued |
| Shutdown.dfy | what `stop` brings about |
| Bypass.dfy | how often MLFQ may serve other jobs first, on the whole engine |
| OneWorker.dfy | the engine with one worker follows Batch.dfy |
| Isolator.dfy | `isolateAndRun` as one call: clone or resume, polling loop, decoding |
| Watchdogs.dfy | the watchdog threads of one `execute` call |
| Pipeline.dfy | the descriptor plumbing of `executePipeline` |
| Parser.dfy | the command parser, a printer, and their round trips |

## How the engine is modelled

A `Label` names the thread that moves and carries every choice that the program does not make
itself: which sleeper `notify_one` wakes, whether `clone` succeeds and with which pid, how a child
ends. `Apply` is then a function, and a run is a sequence of labels. Every critical section, every
system call and every kernel event is one step. The `log` is a history; only the freshness of the
ids that are submitted depends on it. `H` folds it into the counts for one job.

Assumptions:

- Integers are mathematical: `priority + elapsed_bursts`, `elapsed_ms` and `file_counter` do not
  overflow.
- Job ids are handed out once, as `next_job_id++` does, and no queued job is `exit`, which ends the
  program. `cd` and the empty command are modelled.
- A sandbox is one process. Nobody but the engine sends it SIGCONT. Anything may stop it or kill it
  at any time, so the watchdogs and the resource limiter are covered by `SelfStop` and `Die`; that
  includes a watchdog's SIGKILL that comes after the reaping and hits whoever has the pid by then.
- `clone` returns a positive pid or fails, so a started watchdog has a target.
- `kill(-pid, ...)` reaches the child only after its `setpgid(0, 0)`; signals sent earlier are
  lost. SIGCONT discards pending stop signals (section 2.4.1 of POSIX.1-2017, System Interfaces).
- A reaped pid may be given out again.
- Milliseconds are loop counts; every expiry is a choice of the environment.

## What the proofs turned up

- A pool that is started again after `stop` keeps `stopping_` set. Its workers leave as soon as the
  queue is empty, and a job submitted afterwards finds nobody (`RestartedPoolStrandsAJob`). The
  exact condition: while the pool is up, some continuation without another `stop` leaves queued work
  without any worker if and only if `stopping_` is set (`DesertedIffStoppedBefore`).
- `watchdog->start` is called only in the branch that clones. Each watchdog of a call can kill if and
  only if the call clones (`WatchedIffCloned`), so of all the bursts of a job exactly the first is
  watched (`OnlyTheFirstBurstIsWatched`): neither the timeout nor the anomaly check applies to the
  others.
- `watchdog->stop` comes after `waitpid`, so a watchdog can send SIGKILL to a pid that has already been
  reaped, exactly in the calls that reap a child they cloned (`LateKillIffReapedClone`). After `stop`
  has cleared `running_` a watchdog can still kill exactly if it is an AnomalyWatchdog in the middle
  of a sample (`KillsOnceFlaggedIffSampling`).
- A child that is stopped before its `setpgid` is taken for preempted, and no later SIGCONT reaches
  it: it stays stopped until something kills it (`StrandedChildStaysStopped`), while the worker that
  resumed it polls on (`ResumedChildMayStayStopped`), and no watchdog watches that burst. A resumed
  child runs if and only if it is alive and has its group (`ResumeClearsStops`).
- `executePipeline` closes pipe ends by number after `dup2`. If descriptor 0 is closed in the parent,
  stage 1 has no standard input; if only 1 is closed, stage 0 has no standard output, and files for
  them are lost in the same way. All stages are wired as intended if and only if both are open
  (`WiringIsExact`). Nothing worse happens: a stage never holds a foreign pipe end.
- Jobs that are still queued when `stop` has joined all workers stay queued, with their promise
  unset and, if they were preempted, their child stopped (`AfterTheJoins`).
- include/JobResult.hpp:9 lists a verdict "ERROR" and no "FAILED"; the code produces "FAILED"
  (src/WorkerPool.cpp:61). The model follows the code.

## Model

| member | source | states |
|---|---|---|
| Jobs.BranchesDecodeAlike | src/LinuxNamespaceIsolator.cpp:259-298 | the polling and the blocking branch decode a terminal status alike |
| Jobs.VerdictTellsTheEnding | src/WorkerPool.cpp:52-67 | which status gives which verdict and promise value, both directions |
| Schedulers.Choice | src/MLFQScheduler.cpp:7-9 | the picked index holds the least rank, and every earlier job ranks strictly above it, so ties go to the earliest job |
| Schedulers.ChoiceIsTheFirstLeast | src/MLFQScheduler.cpp:7-9 | only one index has that property |
| Schedulers.MlfqGetNextJob | src/MLFQScheduler.cpp:6-14 | the scan returns the first job of least `priority + elapsed_bursts`, told in these fields, and erases exactly it |
| Schedulers.MlfqTakes | src/MLFQScheduler.cpp:7-13 | the first least rank is the first least `priority + elapsed_bursts`, wherever the policy is used |
| Schedulers.PriorityGetNextJob | src/PriorityScheduler.cpp:8-16 | the scan returns the first job of greatest `priority`, told in this field, and erases exactly it |
| Schedulers.PriorityTakes | src/PriorityScheduler.cpp:9-15 | the first least rank is the first greatest `priority`, wherever the policy is used |
| Schedulers.FifoGetNextJob | src/RoundRobinScheduler.cpp:7-11 | the front is returned and popped, which is the least-rank choice when all ranks are equal |
| JobQueue.InMemoryJobQueue.Enqueue | src/InMemoryJobQueue.cpp:6-10 | the job is appended, and exactly one sleeper leaves the wait set if there is one |
| JobQueue.InMemoryJobQueue.TryDequeue | src/InMemoryJobQueue.cpp:12-21 | the thread must wait, and enters the wait set, exactly if the queue is empty and not stopping; the end is signalled only on a stopping, empty queue; otherwise the policy's job is taken and the rest left |
| JobQueue.InMemoryJobQueue.Stop | src/InMemoryJobQueue.cpp:23-29 | `stopping_` is set, everybody is woken, queued jobs stay |
| Levels.PopTakesHead | src/MLFQScheduler.cpp:6-14 | taking the next job removes the head of its own level and changes no other level |
| Levels.AddJobRefinesPush | src/MLFQScheduler.cpp:4 | `addJob` is an append to one level of real multi-level queues |
| Levels.GetNextJobRefinesPop | src/MLFQScheduler.cpp:6-14 | `getNextJob` is a pop from the lowest non-empty level |
| Levels.FlatDequeRefinesLevels | src/MLFQScheduler.cpp:4-14 | for every sequence of adds and gets, the flat deque hands out what multi-level queues hand out |
| Levels.LevelRunIsDeterministic | src/MLFQScheduler.cpp:4-14 | multi-level queues leave no other output possible |
| Levels.PreemptedJobDropsOneLevel | src/WorkerPool.cpp:38-41 | a preempted job reappears at the tail of the next level down, and no other level changes |
| Levels.DrainIsTheStableSort | src/PriorityScheduler.cpp:4-16 | draining the queue gives the stable sort by rank, and nothing else is a stable sort |
| Levels.DrainIsStableSort | src/MLFQScheduler.cpp:4-14 | the drain is sorted, a permutation, and keeps the order within equal ranks |
| Levels.DrainMlfq | src/MLFQScheduler.cpp:6-14 | repeated MLFQ gets empty the deque in ascending order of `priority + elapsed_bursts`, and jobs that agree in it keep their order |
| Levels.DrainPriority | src/PriorityScheduler.cpp:8-16 | repeated priority gets empty the deque in descending order of `priority`, and jobs of equal priority keep their order |
| Levels.PriorityDrainByFields | src/PriorityScheduler.cpp:8-16 | the drain by rank is the stable order by descending `priority` |
| Levels.MlfqDrainByFields | src/MLFQScheduler.cpp:6-14 | the drain by rank is the stable order by ascending `priority + elapsed_bursts` |
| Batch.ServeOne | src/WorkerPool.cpp:30-68 | one loop iteration takes the policy's job and re-enqueues it with one more burst or reports it |
| Batch.RunBatch | src/WorkerPool.cpp:29-69 | the loop produces the specified dispatch and report sequences, in exactly as many dispatches as bursts were owed |
| Batch.WorkIsSchedulerIndependent | src/WorkerPool.cpp:30-68 | every policy needs the sum of the demands in dispatches and reports the same multiset of results |
| Batch.EqualPrioritiesMakeMlfqRoundRobin | src/MLFQScheduler.cpp:6-14 | with equal priorities MLFQ dispatches as Round Robin does, for all demands |
| Batch.LastBurstIsLast | src/WorkerPool.cpp:38-42 | under every policy a job is not dispatched again after the burst that it ends with |
| Batch.RoundRobinCompletionIndex | src/RoundRobinScheduler.cpp:3-11 | job i gets its last burst at dispatch number (sum over j <= i of min(d_j, d_i)) + (sum over j > i of min(d_j, d_i - 1)), and with distinct ids nothing of it follows |
| Batch.FreshBatchCompletionIndex | src/MLFQScheduler.cpp:4-14 | MLFQ has the same index when priorities are equal |
| EngineFrames.StepFrame | src/WorkerPool.cpp:29-70 | every step follows one edge of the worker's control flow and leaves all other workers alone, but for waking sleepers |
| EngineInvariant.InitialInv | include/WorkerPool.hpp:20-25 | the invariant holds of an engine that was not started |
| EngineSteps.TakeKeepsInv | src/InMemoryJobQueue.cpp:12-21 | dequeuing a job keeps the invariant |
| EngineSteps.SpawnKeepsInv | src/LinuxNamespaceIsolator.cpp:175-192 | a first burst, with its unique id and pid, keeps the invariant |
| EngineSteps.ResumeKeepsInv | src/LinuxNamespaceIsolator.cpp:246-249 | resuming keeps the invariant |
| EngineSteps.PollKeepsInv | src/LinuxNamespaceIsolator.cpp:257-277 | each outcome of a poll keeps the invariant |
| EngineSteps.PauseKeepsInv | src/LinuxNamespaceIsolator.cpp:279-284 | sleeping and sending SIGSTOP keep the invariant |
| EngineSteps.BlockKeepsInv | src/LinuxNamespaceIsolator.cpp:287-298 | the blocking wait keeps the invariant |
| EngineSteps.RequeueKeepsInv | src/WorkerPool.cpp:38-42 | re-enqueuing a preempted job keeps the invariant |
| EngineSteps.ReportKeepsInv | src/WorkerPool.cpp:44-64 | submitting a result keeps the invariant |
| EngineSteps.SettleKeepsInv | src/WorkerPool.cpp:66-68 | fulfilling the promise, if the job was submitted with one, keeps the invariant |
| EngineSteps.SubmitKeepsInv | src/InMemoryJobQueue.cpp:6-10 | a producer's enqueue keeps the invariant |
| EngineSteps.StopKeepsInv | src/WorkerPool.cpp:17-27 | each part of `stop` keeps the invariant |
| EngineSteps.StepKeepsInv | src/WorkerPool.cpp:8-70 | every step of every thread and of the kernel keeps the invariant |
| EngineSafety.RunningSandboxHasOneHolder | src/LinuxNamespaceIsolator.cpp:153-192 | a running sandbox belongs to the job of exactly one worker, which waits for it, and to no queued job |
| EngineSafety.QueuedSandboxDoesNotRun | src/WorkerPool.cpp:38-42 | a queued job that has a pid has a stopped or dead child of its own |
| EngineSafety.AtMostThreadsSandboxesRun | src/WorkerPool.cpp:12-14 | at most `num_threads_` sandboxes run at once |
| EngineSafety.NoLostWakeup | src/InMemoryJobQueue.cpp:6-21 | while a worker sleeps un-notified and `stop` has not begun, there are no more queued jobs than notified workers still to retake the lock |
| EngineSafety.QueuedWorkIsServed | src/InMemoryJobQueue.cpp:12-21 | with queued work and the pool up, some worker is not idle (it has a step to take, or a live child to await) exactly if not all have left; before the first `stop` one always is |
| EngineSafety.RestartedPoolStrandsAJob | src/WorkerPool.cpp:8-27 | a concrete run in which a restarted pool leaves a submitted job without any worker |
| Stranding.FreshPoolIsNotDeserted | src/WorkerPool.cpp:8-15 | before the first `stop` no continuation leaves queued work without any worker |
| Stranding.Drain | src/WorkerPool.cpp:29-42 | from every state of a restarted pool some continuation without `stop` makes all workers leave |
| Stranding.DesertedIffStoppedBefore | src/InMemoryJobQueue.cpp:12-18 | while the pool is up, some continuation without `stop` leaves queued work without any worker if and only if `stopping_` is set |
| EngineSafety.NotifyAllWakesEverybody | src/InMemoryJobQueue.cpp:23-29 | after the `notify_all` of `stop` nobody sleeps |
| EngineSafety.NobodySleepsAfterStop | src/InMemoryJobQueue.cpp:12-29 | and nobody sleeps in any continuation, spurious wake-ups and restarts included |
| EngineSafety.ExactlyOnce | src/WorkerPool.cpp:30-68 | submitted jobs are the disjoint union of queued, held and settled jobs; a queued job has no report and no promise value, and its `elapsed_bursts` is its number of preemptions and of dispatches |
| EngineSafety.EveryJournalIsClean | src/WorkerPool.cpp:30-68 | each job is cloned, reaped, reported and settled at most once, gets SIGCONT and SIGSTOP only through its own unreaped child, and is reported with exactly the result that its command and its child's status demand, with its own output; its promise is set exactly if it has one and is settled, to 0 exactly if the child exited with 0 or none was needed; the watchdogs' SIGKILL is not counted here but in Watchdogs.LateKillIffReapedClone |
| EngineEndings.BirthAndDeath | src/LinuxNamespaceIsolator.cpp:185-192 | in every run, a dead child was cloned for its job and has died once since, with the status that it has |
| EngineEndings.ReapedAsItDied | src/LinuxNamespaceIsolator.cpp:257-298 | in every run, a status that is logged as reaped is the one with which the child cloned for that job died, in the only death between its clone and its reaping |
| EngineEndings.ReportedAsItEnded | src/WorkerPool.cpp:44-68 | in every run, a reported job was submitted, and exit code, signal, verdict, command line, output owner and promise are those that the death of its one child demands, or those of a job without a child; a builtin has none |
| EngineSafety.WaitpidNeverFails | src/LinuxNamespaceIsolator.cpp:257-290 | whoever waits, waits for a child of its own that nobody has reaped |
| EngineSafety.BurstsKeepTheirPid | src/LinuxNamespaceIsolator.cpp:246-285 | every SIGCONT and SIGSTOP for a job goes to the pid that was cloned for it |
| EngineSafety.UniqueIdsAreUnique | src/LinuxNamespaceIsolator.cpp:175-179 | the ids that name the capture files differ between jobs |
| EngineSafety.PreemptionIsTransparent | src/WorkerPool.cpp:44-68 | in any two runs, equal terminal statuses give equal exit code, signal, verdict and promise value |
| EngineReports.ReportsAreSchedulerIndependent | src/WorkerPool.cpp:44-64 | any two runs, under any policies and thread counts, that bring the same jobs to the same endings report the same multiset of results |
| EngineSafety.StopsDoNotLeak | src/LinuxNamespaceIsolator.cpp:246-285 | a pending SIGSTOP can stop a running child only in the burst that sent it, after the whole quantum |
| EngineSafety.ResumeClearsStops | src/LinuxNamespaceIsolator.cpp:246-249 | a resumed child runs, with no stop pending and none left to be reported, if and only if it is alive and has its own process group; otherwise nothing about it changes |
| StrandedChild.StrandedChildStaysStopped | src/LinuxNamespaceIsolator.cpp:246-285 | a child that stopped before its `setpgid` stays stopped in every continuation in which nothing kills it |
| StrandedChild.ResumedChildMayStayStopped | src/LinuxNamespaceIsolator.cpp:246-285 | for every policy and preemptive job, a run in which the resumed child stays stopped and its worker polls |
| EngineSafety.StopsWaitForTheQuantum | src/LinuxNamespaceIsolator.cpp:279-284 | no SIGSTOP is sent before `time_quantum` sleeps, and none to a non-preemptive job |
| EnginePreemption.ExpiredQuantumPreempts | src/LinuxNamespaceIsolator.cpp:271-280 | when the quantum is used up and the child runs in its group, the SIGSTOP lets the child stop, and the next poll leads to the re-enqueue |
| EnginePreemption.QuantumPreempts | src/LinuxNamespaceIsolator.cpp:246-285 | for every policy and preemptive job, an undisturbed run through all the sleeps of its quantum to the queue, one level down, and into its next burst, in which the child runs again |
| EngineBurst.BurstIsPollLoop | src/LinuxNamespaceIsolator.cpp:252-285 | in every interleaving, a burst does what the polling loop specifies on the answers that its own polls got: same outcome, same sleeps, same SIGSTOPs, and no poll after the first news |
| Shutdown.WorkersExitWithinSevenSteps | src/WorkerPool.cpp:17-42 | once both flags are set, a worker makes at most seven more steps of its own besides polls, each of which brings it closer to its exit |
| Shutdown.DrainingWorkerCanMove | src/WorkerPool.cpp:22-26 | while `stop` joins, every worker has left, can move, or awaits a live child |
| Shutdown.AtMostOneMoreJob | src/WorkerPool.cpp:30-34 | after `running_` is cleared a worker dequeues at most one more job, and only if it was inside `dequeue` |
| Shutdown.AfterTheJoins | src/WorkerPool.cpp:17-27 | after the joins every job is queued with its promise unset, or settled with its promise, if it has one, fulfilled; and no sandbox runs |
| Bypass.StepIsBalanced | src/MLFQScheduler.cpp:4-14 | at every step, potential left, dispatches and forfeits equal potential before and arrivals |
| Bypass.BypassLaw | src/MLFQScheduler.cpp:4-14 | the same over every run in which a job keeps waiting |
| Bypass.QueuedJobBypassBound | src/MLFQScheduler.cpp:6-14 | another queued job of key c is dispatched first at most k - c times if c < k, once if c = k and it stands ahead, else never |
| Bypass.HeldJobBypassBound | src/WorkerPool.cpp:38-41 | a job in a worker's hands is dispatched first at most k - c - 1 times |
| Bypass.LateArrivalNeverBypasses | src/MLFQScheduler.cpp:4-14 | a later arrival of key at least k is never dispatched first |
| Bypass.WaitingIsBounded | src/MLFQScheduler.cpp:4-14 | without arrivals of smaller key the wait is bounded by the potential |
| OneWorker.EngineFollowsBatch | src/WorkerPool.cpp:29-42 | in every one-worker run that meets the demands, the dispatches made and those Batch predicts for the rest are those it predicts for the whole |
| OneWorker.EngineWorkIsSchedulerIndependent | src/WorkerPool.cpp:30-68 | any two one-worker runs of the engine that bring the same batch to its end, under any policies, take the sum of the demands in dispatches and, if the children end alike, report the same multiset of results |
| OneWorker.EngineReportsAsBatch | src/WorkerPool.cpp:44-64 | and that multiset is the one Batch computes from the endings |
| OneWorker.EngineRoundRobinIndex | src/RoundRobinScheduler.cpp:3-11 | in every complete one-worker run of the engine, the dispatch with the completion index belongs to the job, and no later dispatch does |
| OneWorker.EngineMlfqFollowsRoundRobin | src/MLFQScheduler.cpp:6-14 | a complete MLFQ run of an equal-priority batch dispatches the Round Robin sequence |
| OneWorker.EngineMlfqIsRoundRobin | src/MLFQScheduler.cpp:6-14 | any complete MLFQ run and any complete Round Robin run of an equal-priority batch dispatch the same sequence |
| Isolator.PollLoop | src/LinuxNamespaceIsolator.cpp:254-285 | the first news decides; exactly `time_quantum` sleeps precede any SIGSTOP; news d polls after the first SIGSTOP ends the loop within `time_quantum` + 1 + d polls |
| Isolator.BlockingWait | src/LinuxNamespaceIsolator.cpp:286-299 | the first terminal status or error decides |
| Isolator.PreemptionIsTransparent | src/LinuxNamespaceIsolator.cpp:254-299 | after any number of preempted bursts, the last burst decides what one blocking wait over the same history decides |
| Isolator.LinuxNamespaceIsolator.IsolateAndRun | src/LinuxNamespaceIsolator.cpp:144-305 | resumed exactly if it has a pid, which stays; a first burst draws a number nobody had, also if its clone fails; the outcome is decided by the observations; the watchdog is started exactly by a clone and stopped exactly after a reaping |
| Isolator.LaterBurstsContinue | src/LinuxNamespaceIsolator.cpp:153-249 | over the life of a job, only its first burst clones |
| Isolator.QuantumDecidesTheWait | src/LinuxNamespaceIsolator.cpp:254-298 | a stop as the first news preempts a job with a positive quantum and passes any other job by |
| Watchdogs.AtMostOneKill | src/TimeoutWatchdog.cpp:9-36 | under every interleaving a watchdog makes at most one kill decision, and until it is told to stop its thread ends only with one |
| Watchdogs.NoWatcherOutlivesExecute | src/Executor.cpp:24-27 | when `execute` returns, every watcher thread was joined or never started, with or without an explicit `stop`, and nothing can move any more |
| Watchdogs.StopReturnsSafely | src/TimeoutWatchdog.cpp:25-36 | both exits of `stop` leave the watchdog joined or never to be started |
| Watchdogs.NoKillAfterStop | src/AnomalyWatchdog.cpp:13-55 | no continuation makes such a watchdog kill |
| Watchdogs.NoKillOnceFlagged | src/TimeoutWatchdog.cpp:12-22 | from the moment `stop` clears `running_`, before it joins, only a sampling AnomalyWatchdog can still kill |
| Watchdogs.KillsOnceFlaggedIffSampling | src/AnomalyWatchdog.cpp:17-37 | and every sampling one can: some continuation kills if and only if the watcher is sampling |
| Watchdogs.SamplingMayStillKill | src/AnomalyWatchdog.cpp:25-37 | such a state is reached in every call that reaps the child it cloned: a run that kills after the flag, before the join and after the reaping |
| Watchdogs.JoinIsReached | src/AnomalyWatchdog.cpp:45-55 | the join cannot hang: the watcher can always step, and each step brings it closer to its end |
| Watchdogs.WatchedIffCloned | src/LinuxNamespaceIsolator.cpp:198-200 | from every start of an `execute` call, each watchdog can kill if and only if the call clones: no builtin, no pid yet, and `clone` succeeds |
| Watchdogs.OnlyTheFirstBurstIsWatched | src/LinuxNamespaceIsolator.cpp:153-249 | over the whole life of a job, a burst can be killed by a watchdog if and only if it is the first and was cloned |
| Watchdogs.LateKillIffReapedClone | src/LinuxNamespaceIsolator.cpp:257-305 | a watchdog can kill after the child was reaped if and only if the call reaps a child that it cloned |
| Pipeline.ChildSetup | src/Executor.cpp:88-111 | the child's table is that of the specified calls, also where a pipe end has number 0 or 1 |
| Pipeline.Stage | src/Executor.cpp:69-134 | one iteration gives the child its table and leaves the parent with the new read end alone |
| Pipeline.SetUp | src/Executor.cpp:66-134 | for every parent and two or more commands: the parent ends with the table it began with, each stage has nothing but the parent's table with its own standard input and output, and all stages have both if and only if descriptors 0 and 1 were open in the parent |
| Pipeline.StageIsWithin | src/Executor.cpp:88-111 | whatever is open in the parent, a stage differs from its intended table at most by lacking descriptor 0 or 1 |
| Pipeline.ClosedStdinFailsStageOne | src/Executor.cpp:91-94 | with 0 closed in the parent, stage 1 has no standard input, redirected or not |
| Pipeline.ClosedStdoutFailsStageZero | src/Executor.cpp:96-106 | with 1 closed and 0 open, stage 0 has no standard output, redirected or not |
| Pipeline.WiringIsExact | src/Executor.cpp:66-134 | all stages have their intended tables if and only if 0 and 1 are open in the parent |
| Pipeline.StageSees | src/Executor.cpp:91-111 | with 0 and 1 open, a stage reads its file, else the pipe before it, else the parent's input, and writes likewise |
| Pipeline.WriteEndHasOneHolder | src/Executor.cpp:88-134 | whatever is open in the parent, pipe i's write end is open in stage i alone, as its standard output, and only if no file took its place; with 0 and 1 open, exactly then |
| Pipeline.ReadEndHasOneHolder | src/Executor.cpp:88-134 | whatever is open in the parent, pipe i's read end is open in stage i + 1 alone, as its standard input, and only if no file took its place; with 0 and 1 open, exactly then |
| Pipeline.EndOfFilePropagates | src/Executor.cpp:66-134 | once stage i has exited neither a stage nor the parent can write into pipe i |
| Pipeline.WaitAll | src/Executor.cpp:136-150 | the result is the last stage's, or plain success for a background pipeline |
| Parser.TokenStream.Extract | src/Parser.cpp:14-19 | `>>` takes the first word and leaves the others |
| Parser.LeadingWord | src/Parser.cpp:10-21 | words are the maximal runs without white space |
| Parser.ParseLine | src/Parser.cpp:4-36 | the command is the specified fold of the words, is well formed, and reads the words by their positions |
| Parser.ParsedReadsTheWords | src/Parser.cpp:21-33 | the last `>` and the last `<` in operator position that have a target give the redirections; the command runs in the background exactly if some `&` stands in operator position; the arguments are the first word and, in order, the words that are neither operators nor targets |
| Parser.ParserRange | src/Parser.cpp:4-36 | well-formed commands are exactly what the parser can return |
| Parser.ParseUndoesPrint | src/Parser.cpp:4-36 | parsing the printed form of a well-formed command gives it back |
| Parser.LineRoundTrip | src/Parser.cpp:4-36 | for every line, printing and parsing again changes nothing |
| Parser.ParsePipeline | src/Parser.cpp:38-48 | the commands are those of the segments between bars, without an empty one after a final bar |
| Parser.SegmentsRejoin | src/Parser.cpp:43-45 | the segments, each ended by a bar, are the line, whose final bar is optional |
| Parser.ParsePipelineUndoesPrint | src/Parser.cpp:38-48 | parsing the printed form of a well-formed pipeline gives it back |
| Parser.PipelineRoundTrip | src/Parser.cpp:38-48 | for every line, the same for pipelines, empty segments included |

## Left out

- `child_entry` and the uid and gid maps (src/LinuxNamespaceIsolator.cpp:33-139, 202-245): straight-line kernel calls.
- src/CgroupV2Limiter.cpp and src/SeccompDenylistPolicy.cpp: the limiter kills what is left in its group when `execute` returns, which the engine covers as a death at any time.
- src/FCFSScheduler.cpp: the bodies are those of Round Robin.
- src/ResultCollector.cpp and the observers: reporting is an entry in the log.
- `exit` as a queued command, `reapZombies`, and src/main.cpp and src/benchmark.cpp: wiring.
- Failing `pipe` and `fork` in `executePipeline` (src/Executor.cpp:74-86): early returns that leave descriptors open.
- The file contents that are collected: the model keeps only whose file was read.
- Batch.ServeOne: takes the number of bursts and the ending of each job as inputs instead of running a child; OneWorker.EngineFollowsBatch and OneWorker.EngineReportsAsBatch connect it to the children of the engine.
- Batch.RunBatch: takes the number of bursts of each job as an input instead of running a child.
- Isolator.PollLoop: takes the answers of `waitpid` as an input and reports an unfinished call when they run out, where the source would go on polling; EngineBurst.BurstIsPollLoop supplies the answers from the engine.
- A call of `start` while `stop` is still joining, and `stop` on one watchdog from two threads: data races in the source.
- dashboard/, tests/ and test_suite.py.
