# devenv CI: verified model

A Dafny model of the parts of the CI system whose guarantees span several functions, and proofs of those guarantees.
`dafny verify dfyconfig.toml` checks the whole project.

**Job lifecycle** (`Protocol`, `JobTable`, `JobManager`, `VmManager`, `Runner`, `Backend`, `Lifecycle*`). The `jobs` table
with its row updates, the backend's handlers, and a runner process with its job manager, VM manager and main loop are
given as classes whose methods are proved against functions on values. `Lifecycle` composes those functions into one
transition system: any number of runner processes, connections, claims, cancels, retries, broadcasts and timeouts
interleave one atomic step at a time. Messages in flight form an unordered bag from which any may be lost; none is
duplicated. Reconnecting gives a process a new runner id. A timeout scan may read any subset of the running rows (which of
them are overdue depends on clocks and on `started_at`, written only by the GitHub status update), and the checker acts
later on the copies it read. A retry commits with the copy of the job its handler read. `LifecycleInvariant` and
`LifecycleSteps` prove the invariant every step keeps, `LifecycleTheorems` what follows for whole runs,
`LifecycleProgress` which jobs can still be completed and when a runner can finish, `LifecycleOutcomes` what each step
brings about and whose verdict a report carries, and `LifecycleExample` exhibits runs that meet these bounds.

**Resources of a runner** (`Allocator`, `AddressPool`, `VmHost`). CPU, memory and instance accounting with the 64-bit
wrap-around and saturation of the code, the two address queues, and the guards over them: a dropped guard becomes a
pending release that may run at any later time.

**Logs** (`LogKeys`, `LogStream`, `LogStore`). The text keys and their byte order, the numbering of lines, and the polling
reader whose cursor counts items: first over line numbers, then over the keys of a database that many sessions write to,
proved to refine the former.

**Browser connections** (`SseManager`). `SSEConnectionManager` with the page around it: objects captured by callbacks are
numbers into maps, so a callback keeps the state it captured after the name has moved on. Pending timers are kept by kind
and fire in any order.

**Codecs** (`Framing`, `GuestSession`, `Cmdline`). Length-prefixed messages over a stream that arrives in arbitrary chunks,
the guest session on top of it, and the kernel command line printed on the host and parsed in the guest.

Where the code says less, or something else, than one would expect, the model follows the code:

- A finished row does not always keep its verdict. `LifecycleTheorems.VerdictKeptIff` and `VerdictStandsIff` say exactly
  when it does, `AtMostTwoOverwrites` how often it does not, and `LifecycleExample.AllThreeWritesHappen` shows a case.
- Registering a job again overwrites its entry; `JobManager.HistoryLegalIffRegisteredOnce` gives the exact condition for
  an orderly history, and `LifecycleTheorems.AtMostOnce` shows that the protocol meets it. The same goes for launching a job
  again (`VmManager.LaunchKeepsChannelsIff`).
- A VM that ends, and whose event is read, before its job is marked running does not complete it. Such a job is stranded:
  `LifecycleProgress.WhoIsStranded` says which jobs are, `StrandedUntilTold` how long, and `CanFinishIff` that a runner that
  is shutting down can still finish exactly if it has none. `LifecycleExample.StrandedJobBlocksShutdown` shows a case.
- The comment in the cancel handler speaks of a job that was running; the test it guards is true for every successful
  cancel, and only the row's runner decides whether a message is sent (`Backend.CancelTellsRunningJobsOnly`).
- The runner's branch for a failed launch cannot be taken, since `launch_vm` has no failing path, and the graceful exit in the
  reconnect branch cannot be taken either, since that branch only runs while not shutting down.
- The megabytes-to-bytes product wraps at 2^44 MB (`Allocator.BytesAreReal`), and a requested CPU count survives the
  32-bit column only in the range given by `JobTable.RequestedVmSurvives`.

## Model

| member | source | states |
|---|---|---|
| JobTable.NullFilterIsRedundant | backend/src/job/model.rs:308-324 | in every table that assigns runners to running jobs only, the null filter of the queue query excludes no row |
| JobTable.FindQueued | backend/src/job/model.rs:308-324 | an unlocked, unassigned, queued row of the platform with no smaller candidate, and none only if there is no candidate |
| JobTable.NewJobIsOffered | backend/src/job/model.rs:175-192 | a new job can be claimed and is found by the queue query of its platform |
| JobTable.RetriedJobIsOffered | backend/src/job/model.rs:339-359 | so is a retried one, with the original's VM and both links, and no other row changes |
| JobTable.ClaimTakesFromQueue | backend/src/job/model.rs:278-292 | a claim of a queued job names its runner, takes it out of every queue, and makes any second claim void |
| JobTable.FinishedRowKeptIff | backend/src/job/model.rs:294-306 | of all row updates only the status write touches a finished row's verdict, and exactly if it writes another one |
| JobTable.SameLinksKeepForest | backend/src/job/model.rs:242-306 | updates of status and runner leave the retry forest intact |
| JobTable.InsertRootKeepsForest | backend/src/job/model.rs:175-192 | a new job is a new root of the forest |
| JobTable.RetryKeepsForest | backend/src/job/model.rs:335-364 | a retry keeps the forest, also with a stale copy and when the job was retried before |
| JobTable.AncestorDepth | backend/src/job/model.rs:335-364 | following the previous-job link n times goes up exactly n levels and never changes the VM configuration |
| JobTable.RetryChains | backend/src/job/model.rs:335-364 | previous-job links never cycle, every chain ends in a root, platform, cpus and memory are constant along it |
| JobTable.RetriedIsNullIffNeverRetried | backend/src/job/model.rs:354-359 | the retried-job link is null exactly when no job names this one as its previous |
| JobTable.RequestedVmSurvives | backend/src/github/model.rs:722-723 | the VM built from the row is the requested one iff the cpu count survives the signed 32-bit column |
| JobTable.Jobs.New | backend/src/job/model.rs:175-192 | inserts a queued row without runner, with the defaults for missing sizes |
| JobTable.Jobs.ClaimJobForRunner | backend/src/job/model.rs:278-292 | exactly one row is updated, and only if it was queued |
| JobTable.Jobs.UpdateJobStatus | backend/src/job/model.rs:294-306 | overwrites the status of an existing row and nothing else |
| JobTable.Jobs.CompleteJob | backend/src/job/model.rs:242-259 | completes the row whatever its status |
| JobTable.Jobs.CancelJob | backend/src/job/model.rs:403-440 | cancels a queued or running row, leaves a finished one, tells which, and reports a missing row |
| JobTable.Jobs.RetryJob | backend/src/job/model.rs:335-364 | creates a claimable job and both links iff the copy in hand is complete and not a success, else changes nothing |
| JobManager.RegisterKeepsInv | runner/src/job_manager.rs:52-69 | registering a new id keeps map and event log consistent and every history legal |
| JobManager.UpdateKeepsInv | runner/src/job_manager.rs:72-114 | any update request keeps them so |
| JobManager.UpdateTakesEffectIff | runner/src/job_manager.rs:79-104 | exactly the allowed requests leave the job with the requested status, any other changes nothing, and other jobs never change |
| JobManager.TerminalOnce | runner/src/job_manager.rs:72-114 | a job has at most one terminal event, and it is the job's status from then on |
| JobManager.HistoryLegalIffRegisteredOnce | runner/src/job_manager.rs:52-114 | over every run a job's events are a prefix of Queued, Running, Complete or of Queued, Cancelled iff it was registered at most once |
| JobManager.JobsAreFoldOfLog | runner/src/job_manager.rs:52-114 | over every run the job map is the replay of the emitted events |
| JobManager.ActiveIsQueuedOrRunning | runner/src/job_manager.rs:146-151 | active jobs are the queued and the running ones |
| JobManager.JobManager.RegisterJob | runner/src/job_manager.rs:52-69 | overwrites the entry and emits a queued event |
| JobManager.JobManager.UpdateJobStatus | runner/src/job_manager.rs:72-114 | fails exactly for unknown ids; changes and emits exactly for allowed transitions |
| JobManager.JobManager.ActiveJobCount | runner/src/job_manager.rs:146-151 | counts the jobs that are not complete |
| JobManager.JobManager.GetJobCounts | runner/src/job_manager.rs:154-175 | one pass counts queued and running jobs, and active is their sum |
| VmManager.LaunchKeepsCompletions | runner/src/vm_manager.rs:52-117 | a launch keeps one completion event per ended task |
| VmManager.ExitKeepsCompletions | runner/src/vm_manager.rs:187-240 | the end of a VM, or the failure to create it, adds the task's only completion event |
| VmManager.CleanUpKeepsCompletions | runner/src/vm_manager.rs:242-245 | removing the channel adds none |
| VmManager.ExitTells | runner/src/vm_manager.rs:222-239 | the completion event carries the job and the exit status of the task that ended |
| VmManager.ToldGetsOneMore | runner/src/vm_manager.rs:126-130 | the task behind the job's channel gets one command more, no other task gets one |
| VmManager.ChannelsKept | runner/src/vm_manager.rs:52-117 | while jobs are launched once, a control channel exists exactly for the tasks that have not cleaned up |
| VmManager.LaunchKeepsChannelsIff | runner/src/vm_manager.rs:62-66 | a launch keeps channels and unfinished tasks matched iff the job has no channel yet |
| VmManager.RelaunchLosesChannel | runner/src/vm_manager.rs:242-245 | otherwise, whether the first VM still runs or has ended, its clean-up removes the second VM's channel; no run of the lifecycle launches a job twice (LifecycleTheorems.AtMostOnce) |
| VmManager.VmManager.LaunchVm | runner/src/vm_manager.rs:52-117 | registers the channel and starts the task, without a failing path |
| VmManager.VmManager.ShutdownVm | runner/src/vm_manager.rs:120-135 | sends one command to the task behind the job's channel, says that there is none, or fails when the task ends before the send |
| VmManager.VmManager.FinishTask | runner/src/vm_manager.rs:222-245 | sends the completion event, then removes the job's channel |
| Runner.ExitCountsIffRunning | runner/src/bin/runner.rs:309-334 | the end of a VM is recorded iff its job is marked running by then |
| Runner.EarlyExitStrandsJob | runner/src/bin/runner.rs:636-638 | handling the end of a VM before its job is marked running uses the event up and leaves the job running |
| Runner.ClaimedJobIsLaunched | runner/src/bin/runner.rs:582-639 | handling a claimed job leaves it running, with a new task for exactly its VM and a channel to that task |
| Runner.ToldVerdict | runner/src/bin/runner.rs:641-682 | a timeout or cancellation records exactly that verdict of a running job |
| Runner.EndVerdict | runner/src/bin/runner.rs:309-334 | the end of a running job's VM records success iff it ended well, and failure otherwise |
| Runner.ReportIsTrue | runner/src/bin/runner.rs:371-386 | a completion is reported with its own verdict, nothing else is reported |
| Runner.RunnerProcess.HandleServerMessage | runner/src/bin/runner.rs:538-686 | claims exactly what fits while not shutting down; registers, launches and marks claimed jobs; completes timed out and cancelled ones and sends their VMs one shutdown command; releases the job's resources when that fails for a cancelled one |
| Runner.RunnerProcess.HandleStatusEvent | runner/src/bin/runner.rs:371-404 | sends a report exactly for terminal events, then asks for work if there is room |
| Runner.RunnerProcess.HandleVmCompletion | runner/src/bin/runner.rs:309-334 | takes the next VM event and completes the job by its exit status |
| Runner.RunnerProcess.HandleShutdownSignal | runner/src/bin/runner.rs:364-368 | sets the flag and sends nothing |
| Runner.RunnerProcess.CloseIfDone | runner/src/bin/runner.rs:352-360 | leaves the loop iff shutting down with no active job |
| Backend.CancelTellsRunningJobsOnly | backend/src/job/serve.rs:97-111 | a cancelled job has a runner to tell iff it was running |
| Backend.SendGrows | backend/src/runner/serve.rs:44-53 | a timeout message goes to the end of its own runner's channel only |
| Backend.SendAppends | backend/src/runner/serve.rs:44-53 | a message comes last in its runner's channel if that holds fewer than 32, and no other channel changes |
| Backend.OfferTellsConfig | backend/src/runner/serve.rs:56-65 | an offer tells the job's id, platform, cpus and memory |
| Backend.Backend.Register | backend/src/runner/serve.rs:32-35 | a connection gets a platform and an empty channel |
| Backend.Backend.Unregister | backend/src/runner/serve.rs:38-41 | only the channel goes, the runner's platform stays on record |
| Backend.Backend.TrySendTo | backend/src/runner/serve.rs:44-53 | succeeds iff the runner is connected and its channel has room, and appends then |
| Backend.Backend.BroadcastJobAvailable | backend/src/runner/serve.rs:68-98 | hands the offer and the runners connected at this moment to a task, unless there are none |
| Backend.Backend.RunBroadcast | backend/src/runner/serve.rs:98-141 | later, of those runners exactly the ones of the platform that are still connected and have room get the offer, once each, and are counted |
| Backend.Backend.HandleClaim | backend/src/runner/serve.rs:209-235 | replies with the claimer's copy of the VM iff the row was still queued |
| Backend.Backend.CheckAndSendJob | backend/src/runner/serve.rs:309-349 | offers the least unlocked queued job of the runner's platform, if there is one |
| Backend.Backend.CancelJob | backend/src/job/serve.rs:79-135 | status code, row and message to the runner of every cancel request |
| Backend.Backend.TimeoutPass | backend/src/runner/serve.rs:365-405 | every overdue job is either announced to its runner or finished on the spot, never both, never neither; channels only grow by timeouts |
| LifecycleSteps.StepKeepsInv | backend/src/runner/serve.rs:202-301 | every step of backend, runners and network keeps the protocol invariant |
| LifecycleSteps.ReachableInv | backend/src/runner/serve.rs:202-301 | so every reachable state satisfies it |
| LifecycleTheorems.RowsMoveForward | backend/src/job/model.rs:242-324 | over every run a row's rank never decreases, its runner is written at most once, its configuration never changes, queued means no runner and running means one |
| LifecycleTheorems.FiltersExcludeNothing | backend/src/runner/serve.rs:366-367 | in every reachable state neither the null filter of the queue query nor the checker's runner test excludes anything |
| LifecycleTheorems.RetriesFormForest | backend/src/job/serve.rs:160-180 | in every reachable table the retry links form a forest, repeated and concurrent retries included |
| LifecycleTheorems.TicketsComeFromClaims | backend/src/runner/serve.rs:209-235 | a claim's answer is only sent by the claim that won the row |
| LifecycleTheorems.ReportsComeFromEvents | runner/src/bin/runner.rs:371-386 | a report is only sent for a terminal event read for the first time |
| LifecycleTheorems.AtMostOnce | backend/src/job/model.rs:278-292 | over every interleaving a job is claimed, registered, launched, reported, cancelled and finished by the timeout checker at most once each |
| LifecycleTheorems.OnlyThreeWriters | backend/src/runner/serve.rs:236-241 | a status only becomes a completion, or another one, through a report, a successful cancel or a direct timeout |
| LifecycleTheorems.AtMostThreeTerminalWrites | backend/src/runner/serve.rs:352-405 | over every run at most one write of each of these kinds reaches a row, at most three in all |
| LifecycleTheorems.VerdictKeptIff | backend/src/job/model.rs:294-306 | in every reachable state a step leaves a finished row's verdict alone iff it is neither a differing report nor an unannounced timeout of a row not yet timed out |
| LifecycleTheorems.VerdictStandsIff | backend/src/runner/serve.rs:236-241 | over any stretch of any run a verdict stands throughout iff no step of the stretch is one of these |
| LifecycleTheorems.AtMostTwoOverwrites | backend/src/runner/serve.rs:365-405 | no row is overwritten a third time |
| LifecycleExample.AllThreeWritesHappen | backend/src/runner/serve.rs:352-405 | a run in which one row gets all three, so the bound is exact and verdicts do change |
| LifecycleTheorems.ClaimsMatchPlatform | backend/src/runner/serve.rs:209-235 | a job is only claimed by a connection of its own platform, which the row then names |
| LifecycleTheorems.LaunchesMatchRow | runner/src/bin/runner.rs:582-639 | the VM launched for a job has exactly the row's cpus, memory and platform, on a runner of that platform, though neither claim nor answer re-checks the row |
| LifecycleTheorems.ReportsAreCompletions | runner/src/bin/runner.rs:371-404 | in every reachable state every report in flight is a completion of a job that was claimed |
| LifecycleTheorems.VmBookkeeping | runner/src/vm_manager.rs:161-245 | in every reachable state one completion event per ended task, and channels exactly for tasks that have not cleaned up |
| LifecycleTheorems.ShutdownFreezes | runner/src/bin/runner.rs:351-407 | once shutting down no job enters a runner's manager and its active jobs only become fewer |
| LifecycleTheorems.ClosedMeansComplete | runner/src/bin/runner.rs:352-360 | a runner that closed gracefully has only complete jobs |
| LifecycleProgress.ReachableTracked | runner/src/bin/runner.rs:582-639 | in every reachable state a known job has no VM before its launch and afterwards either a task or its one completion event, and is queued exactly while its claim is being handled |
| LifecycleProgress.MarkingStrandsIff | runner/src/bin/runner.rs:636-638 | marking a job running strands it iff its VM has ended and the event was read before |
| LifecycleProgress.WhoIsStranded | runner/src/bin/runner.rs:309-334 | in every reachable state a running job has neither a task nor an unread event iff its event has been read already |
| LifecycleProgress.StrandedUntilTold | runner/src/bin/runner.rs:641-682 | over any stretch of any run such a job stays so throughout iff its process receives neither its timeout nor its cancellation |
| LifecycleProgress.CanFinishIff | runner/src/bin/runner.rs:351-360 | a runner that is shutting down can still reach its graceful exit iff none of its jobs is stranded |
| LifecycleExample.StrandedJobBlocksShutdown | runner/src/bin/runner.rs:351-360 | a run after which a runner is shutting down and can never finish |
| LifecycleOutcomes.CreatedJobIsOffered | backend/src/runner/serve.rs:68-142 | a created job is claimable and everybody connected is owed a notice with its VM |
| LifecycleOutcomes.RetriedJobIsOffered | backend/src/job/serve.rs:175-194 | a committed retry is claimable, in the queue of its platform, and everybody connected is owed a notice with the original's VM |
| LifecycleOutcomes.NoticeIsSent | backend/src/runner/serve.rs:111-118 | a notice reaches its runner iff that is still connected and of the job's platform |
| LifecycleOutcomes.QueueIsOffered | backend/src/runner/serve.rs:309-349 | a look at the queue offers the oldest fitting job, and nothing only if there is none |
| LifecycleOutcomes.ClaimIsAnswered | backend/src/runner/serve.rs:209-235 | a claim of a queued job takes the row and is answered; any other claim changes nothing and is not |
| LifecycleOutcomes.ReportIsWritten | backend/src/runner/serve.rs:236-253 | a report is written as it is, to its row only, and its sender gets another look at the queue |
| LifecycleOutcomes.CancelIsTold | backend/src/job/serve.rs:79-135 | a cancel finishes exactly unfinished rows and tells exactly a runner that can be reached |
| LifecycleOutcomes.TimeoutIsToldOrWritten | backend/src/runner/serve.rs:365-405 | an overdue job's runner is told or its row is finished, never both |
| LifecycleOutcomes.ConnectionGetsLook | backend/src/runner/serve.rs:187-200 | a new connection has its platform on record and gets a look at the queue |
| LifecycleOutcomes.RequestGetsLook | backend/src/runner/serve.rs:254-257 | a request for a job gets its connection a look at the queue |
| LifecycleOutcomes.RetryReadCommits | backend/src/job/model.rs:335-364 | a retry that was read can be committed, from the row as it was read, and only once |
| LifecycleOutcomes.DisconnectIsFinal | backend/src/runner/serve.rs:303-304 | over every run, after a disconnect nothing is read from that connection, looked up for it or sent to it, and its name is not used again |
| LifecycleOutcomes.EndIsFinal | runner/src/bin/runner.rs:352-360 | over every run, after a process has closed or crashed its loop connects, asks, receives and reports nothing more |
| LifecycleOutcomes.OfferIsClaimed | runner/src/bin/runner.rs:548-581 | an offer is claimed for the VM it told iff there is room |
| LifecycleOutcomes.ToldIsHandled | runner/src/bin/runner.rs:641-682 | receiving a timeout or cancellation is the handling of that message |
| LifecycleOutcomes.ClaimedIsHandled | runner/src/bin/runner.rs:582-639 | receiving, launching and marking, with nothing in between, are the handling of a claimed job |
| LifecycleOutcomes.EventIsReported | runner/src/bin/runner.rs:371-404 | a completion that is read is reported with its own verdict iff there is a connection |
| LifecycleOutcomes.VerdictsAreTrue | runner/src/bin/runner.rs:309-334 | over every run a complete job whose process was not told of a timeout or cancellation has the verdict of its VM's exit status |
| LifecycleOutcomes.ReportsAreTrue | runner/src/bin/runner.rs:371-386 | over every run a report carries the status of its job in the sending manager, and that verdict |
| Allocator.FitsMeans | runner/src/resource_manager.rs:76-115 | the limits check in plain arithmetic: an instance is left and the sums stay below the limits with one CPU and 100 MiB to spare |
| Allocator.RejectionTells | runner/src/resource_manager.rs:82-112 | which reason is given, what it says is asked for, and what it says is left beside the reserve |
| Allocator.ExactBooks | runner/src/resource_manager.rs:231-292 | over every run, reused ids included, each counter is the sum over the job map plus what overwriting an entry leaked, and the limits hold |
| Allocator.FreshIdsLeakNothing | runner/src/resource_manager.rs:231-292 | with a fresh id per allocation the counters are exactly the sums |
| Allocator.ArithmeticIsExact | runner/src/resource_manager.rs:94-106 | in every reachable state no addition wraps and no subtraction saturates, even with reused ids |
| Allocator.BytesAreReal | runner/src/resource_manager.rs:236 | the accounted bytes are the requested megabytes iff below 2^44 MB |
| Allocator.ResourceManager.Check | runner/src/resource_manager.rs:76-115 | the first reason in the order instances, CPUs, memory, with its numbers |
| Allocator.ResourceManager.CanAllocate | runner/src/resource_manager.rs:263-269 | answers whether a request would fit and reserves nothing |
| Allocator.ResourceManager.HasMinimalCapacity | runner/src/resource_manager.rs:320-322 | whether one CPU would fit |
| Allocator.ResourceManager.AllocateResources | runner/src/resource_manager.rs:231-260 | books the VM iff it still fits at this moment, else gives the reason and changes nothing |
| Allocator.ResourceManager.ReleaseJob | runner/src/resource_manager.rs:272-292 | returns what the id had booked, nothing for an unknown id |
| AddressPool.FirstInFirstOut | runner/src/resource_manager.rs:352-403 | over every run what was queued, in order, is what was issued, in order, and what is still queued |
| AddressPool.ReissuedInTurn | runner/src/resource_manager.rs:352-403 | a returned address is issued again right after every address queued ahead of it |
| AddressPool.SameElementsArePermutation | runner/src/resource_manager.rs:187-207 | queues without duplicates over the same range are permutations of each other |
| AddressPool.PoolContents | runner/src/resource_manager.rs:187-207 | 253 addresses from 10.0.0.2 on and 1022 context ids from 3 on |
| AddressPool.Pool.constructor | runner/src/resource_manager.rs:187-207 | the loop fills the queue with the whole range in order |
| AddressPool.Pool.Allocate | runner/src/resource_manager.rs:352-367 | takes the front, or nothing from an empty queue |
| AddressPool.Pool.Release | runner/src/resource_manager.rs:370-378 | appends at the back |
| VmHost.ReachableInv | runner/src/resource_manager.rs:408-528 | over every run of guarding, dropping, taking and delayed releasing the books and both pools stay exact |
| VmHost.LiveVmsFit | runner/src/vm_impl/linux.rs:117-122 | however many jobs were claimed, the VMs alive at once stay within the counters and the instance limit, and the counters within theirs |
| VmHost.AddressesAreExclusive | runner/src/resource_manager.rs:408-479 | no two guards, pending releases or taken addresses share an address, and none of them is free |
| VmHost.NoAddressIsLost | runner/src/resource_manager.rs:352-479 | free, held, being released and taken addresses are exactly the initial range, without duplicates |
| VmHost.IdleHostIsPristine | runner/src/resource_manager.rs:434-528 | when every guard is gone and every release has run, the books are empty and both pools hold a permutation of their start |
| VmHost.HostRefinesPool | runner/src/resource_manager.rs:352-479 | over every run of guards, drops and delayed releases each free queue is that of the pool's own first-in-first-out history |
| VmHost.ReissuedInTurn | runner/src/resource_manager.rs:434-479 | an address whose release runs is issued again next after exactly the addresses free at that time, in their order |
| VmHost.VmStore.NewJobGuard | runner/src/resource_manager.rs:231-260 | books the VM and returns a live guard exactly when it fits; the whole state afterwards |
| VmHost.VmStore.NewAddressGuard | runner/src/resource_manager.rs:413-421 | takes the front of this queue only and returns a live guard over it, none when the queue is empty; the whole state afterwards |
| VmHost.VmStore.Drop | runner/src/resource_manager.rs:518-528 | a live guard becomes a pending release; nothing is freed yet |
| VmHost.VmStore.Take | runner/src/resource_manager.rs:428-431 | a live guard hands over what it holds and will release nothing |
| VmHost.VmStore.FinishRelease | runner/src/resource_manager.rs:434-479 | a release returns exactly what its guard held |
| VmHost.VmStore.NewVm | runner/src/vm_impl/linux.rs:106-260 | books, queues and guards afterwards: on success all three guards live, on failure at any point exactly those acquired so far start to release |
| LogKeys.HexOrder | logger/src/stream.rs:37-39 | text order of fixed-width hexadecimal is numeric order, and the text is injective |
| LogKeys.UuidTextInjective | logger/src/stream.rs:37-39 | session ids have texts of one length, all different |
| LogKeys.KeyOrder | logger/src/stream.rs:37-47 | within a session byte order of keys is numeric order of line numbers |
| LogKeys.ScanIsExact | logger/src/stream.rs:76 | a scan sees exactly this session's lines from the cursor up to, not including, the last number |
| LogKeys.KeyDigits | logger/src/stream.rs:37-39 | a key is the session's text, a hyphen and lowercase digits of the line |
| LogStream.RunKeepsInv | logger/src/stream.rs:69-97 | the cursor counts the yielded items and never passes the highest yielded line by more than one, over every schedule |
| LogStream.YieldIsRepeatOrNext | logger/src/stream.rs:80-84 | a line never delivered before is higher than every delivered one |
| LogStream.CursorTheorem | logger/src/stream.rs:69-97 | for every schedule of writes, scans and errors no stored line up to the highest delivered one is skipped, and repeats are at most one more than the missing lines |
| LogStream.RescansRunDry | logger/src/stream.rs:75-95 | without new lines at most last + 1 - cursor further items are yielded, however often it rescans |
| LogStream.EmptyScanMeansAllDelivered | logger/src/stream.rs:86-88 | an empty scan means that every stored line was delivered and repeats number exactly one more than the missing lines |
| LogStream.ScanReturnsLines | logger/src/stream.rs:76-84 | the items of a scan are this session's stored lines from the cursor on, in line order, whatever other sessions wrote |
| LogStream.ParsedCount | logger/src/server.rs:64-67 | exactly the entries that parse take a line number |
| LogStream.ParsedAt | logger/src/server.rs:64-75 | each of them takes the number after those before it |
| LogStream.LogServer.PostLogs | logger/src/server.rs:60-98 | line k holds the k-th entry that parsed wherever its write succeeded, and nothing else in the store changes |
| LogStream.YieldReturnsFirst | logger/src/stream.rs:80-84 | the next item of an open scan is its least remaining line |
| LogStream.YieldsFollowScan | logger/src/stream.rs:80-84 | yielding k times gives the scan's first k lines and advances the cursor by k |
| LogStore.StoreRefinesStream | logger/src/stream.rs:69-97 | every run of the reader over a database that other sessions write to is a run of the line-number stream |
| LogStore.NextIsLeast | logger/src/stream.rs:80-84 | the key the iterator returns next is that of the least line the scan has still ahead |
| LogStore.NoKeyIsSkipped | logger/src/stream.rs:69-97 | after every run the cursor counts the delivered keys, all are in the database, and no key of the session below a delivered one is missing |
| LogStore.DbFetcher.Poll | logger/src/stream.rs:75-95 | one round of the loop, wherever the scan ends or fails: delivers and counts a prefix of the scan, and is a run of the reader |
| SseManager.StepKeepsInv | frontend/src/interop.ts:53-206 | every call, timer and source event keeps the manager's invariant |
| SseManager.ExactlyOneToken | frontend/src/interop.ts:53-206 | after any order of events a name whose state is connecting has exactly one of an open source, a pending creation and a pending retry; any other name has none |
| SseManager.OneSourcePerName | frontend/src/interop.ts:82-174 | at most one source per name is open, it is the one in the map and works for the current state, and no retry is pending beside it |
| SseManager.ReceivedIsHeard | frontend/src/interop.ts:102-112 | over every run a state has received exactly the parsed messages of the sources that worked for it, in order |
| SseManager.TimerDelivers | frontend/src/interop.ts:119-126 | the timer hands over everything that waits as one batch |
| SseManager.DisconnectDelivers | frontend/src/interop.ts:188-205 | a disconnect hands over what waits and leaves neither a delivery nor a retry to come |
| SseManager.SettingsAreLatest | frontend/src/interop.ts:71-79 | over every run a name's state has the address of the last connect and counts the errors since its source last opened |
| SseManager.SourceHasLastUrl | frontend/src/interop.ts:92-94 | over every run an open source listens at the address its name was last connected to |
| SseManager.BatchingIsExact | frontend/src/interop.ts:102-127 | over every run delivered batches followed by the buffer are the messages heard, in order; a waiting message has exactly one timer; a stopped state has delivered everything |
| SseManager.WantedChanges | frontend/src/interop.ts:129-173 | a name becomes wanted exactly by a connect and stops being so exactly by a disconnect or a failed creation, never by an error |
| SseManager.StaysDisconnected | frontend/src/interop.ts:88-90 | after a disconnect no leftover timer opens a source for the name until the next connect |
| SseManager.CanReconnect | frontend/src/interop.ts:82-174 | a wanted name is never stuck: its retry and its creation, two steps at most, give it an open source |
| SseManager.DisconnectClearsRetry | frontend/src/interop.ts:62-69 | clearing the retry in connect is redundant, the disconnect that follows clears it too |
| SseManager.SSEConnectionManager.Connect | frontend/src/interop.ts:53-80 | replaces source, timers and state of the name, keeps its retry count, schedules the creation |
| SseManager.SSEConnectionManager.CreateConnection | frontend/src/interop.ts:82-87 | schedules a creation for the name's state of this moment, if it is still connecting |
| SseManager.SSEConnectionManager.CloseSource | frontend/src/interop.ts:177-185 | detaches, closes and unregisters the name's source, no other |
| SseManager.SSEConnectionManager.StopState | frontend/src/interop.ts:188-205 | stops the name's current state, clears exactly its two timers, hands over its buffer |
| SseManager.SSEConnectionManager.OnOpen | frontend/src/interop.ts:96-100 | resets the retry count of the state the source was created for |
| SseManager.SSEConnectionManager.Disconnect | frontend/src/interop.ts:176-206 | closes the source, clears both timers, hands over the buffer |
| SseManager.SSEConnectionManager.OnTick | frontend/src/interop.ts:88-170 | opens the source for a state still connecting, forgets the name when that throws |
| SseManager.SSEConnectionManager.OnRetryTimeout | frontend/src/interop.ts:161-163 | schedules a creation for whatever state the name has by then |
| SseManager.SSEConnectionManager.OnBatchTimeout | frontend/src/interop.ts:119-126 | hands over a non-empty buffer |
| SseManager.SSEConnectionManager.OnMessage | frontend/src/interop.ts:102-130 | buffers a message that parsed and restarts the batch timer, ignores any other |
| SseManager.SSEConnectionManager.OnError | frontend/src/interop.ts:132-164 | closes the source and schedules one retry |
| Framing.DecodeFrame | runner/src/vsock.rs:166-184 | what a reader makes of any frame, including the truncated length of a body of 2^32 bytes or more |
| Framing.LeastSignificantFirst | runner/src/vsock.rs:177-182 | the length is written with its least significant byte first |
| Framing.ArrivesIffFits | runner/src/vsock.rs:176-183 | a message arrives whole with the stream in step iff its body is shorter than 2^32 bytes |
| Framing.CutFrameFails | runner/src/vsock.rs:166-175 | a frame cut anywhere is not read |
| Framing.PrefixFree | runner/src/vsock.rs:176-183 | no frame is a prefix of another |
| Framing.RoundTrip | runner/src/vsock.rs:166-184 | any messages followed by any cut frame are read as exactly these messages, then reading fails |
| Framing.DecodeIsExact | runner/src/vsock.rs:166-175 | of any bytes, the messages read are the only ones that encode to the part consumed |
| Framing.MessageStream.ReadExact | runner/src/vsock.rs:168-174 | fills the buffer from chunks of any size with exactly the next bytes, or fails at the end of the stream |
| Framing.MessageStream.ReadMessage | runner/src/vsock.rs:166-175 | reads one frame, however the bytes were cut into chunks |
| Framing.MessageStream.WriteMessage | runner/src/vsock.rs:177-183 | writes one frame |
| GuestSession.LaterMessages | runner/src/vsock.rs:311-371 | more messages only add logs, and after the job's result they change nothing |
| GuestSession.ForeignMessagesIgnored | runner/src/vsock.rs:322-360 | another job's messages and further handshakes make no difference |
| GuestSession.WrongHandshakeDoesNothing | runner/src/vsock.rs:285-306 | a first message other than this job's Ready forwards nothing and stores nothing, whatever follows |
| GuestSession.LogsAreForwardedAtOnce | runner/src/vsock.rs:328-351 | logs are forwarded before there is any result |
| GuestSession.UnreadableEndsSession | runner/src/vsock.rs:362-369 | a message that cannot be read ends the session, whatever follows |
| GuestSession.SmallMessagesSerialise | runner/src/vsock.rs:166-184 | a concrete serialiser that meets what GuestIsHeard asks, for exactly the scripts of one-byte jobs and entries |
| GuestSession.GuestIsHeard | runner/src/vsock.rs:262-391 | a guest that is ready, logs and reports, with messages that survive serialising, has every entry forwarded in order and its result kept, whatever bytes follow |
| GuestSession.CutConnection | runner/src/vsock.rs:362-369 | losing the connection at any byte forwards a prefix of the logs and never invents or changes a result |
| GuestSession.GuestServer.ReadGuest | runner/src/vsock.rs:166-175 | the next message, or nothing when bytes run out or do not parse |
| GuestSession.GuestServer.FollowGuest | runner/src/vsock.rs:309-371 | the loop forwards exactly the job's logs before its first result and returns that result |
| GuestSession.GuestServer.HandleGuestConnection | runner/src/vsock.rs:262-391 | without the handshake nothing is forwarded or stored; otherwise the job's own logs before its first result are forwarded, and result and notice exist exactly when that result does |
| Cmdline.ParsedIsPlain | runner/src/vm_impl/linux_networking.rs:160-177 | whatever the command line, the settings read from it hold no colon and no white space |
| Cmdline.PrintedWords | runner/src/vm_impl/linux.rs:281-286 | the words of the command line and the seven fields of its ip option |
| Cmdline.WhiteSpace | runner/src/vm_impl/linux_networking.rs:160-162 | options are split at exactly the 25 characters with the property White_Space |
| Cmdline.FirstKeyWins | runner/src/vm_impl/linux_networking.rs:162-164 | the first option that starts with the key is taken |
| Cmdline.FourFieldsAreRead | runner/src/vm_impl/linux_networking.rs:165-176 | four fields are enough, the second is ignored, and with fewer nothing is read |
| Cmdline.RoundTripIff | runner/src/vm_impl/linux.rs:281-286 | the guest reads back address, gateway and mask iff none of them holds a colon or white space |
| Cmdline.GuestsAreConfigured | runner/src/vm_impl/linux.rs:281-286 | so every guest with a dotted address gets it, with the gateway and mask in use |

## Left out

- HTTP routing, SQL execution, JSON, authorisation, tracing and metrics: library plumbing. A row update is one atomic step,
  message bodies are opaque bytes and parsing them is a parameter.
- GitHub check runs and all timestamps, `started_at` included: remote calls whose failures are ignored. Any running row may be overdue.
- Bounded channels in the transition system: a send may fail instead, and the runner's own status and completion channels
  never fill up. `Backend` has the capacity of 32 of a runner's channel.
- Failing database calls: the handlers log them and go on, or answer with an internal error.
- The JobConfig contents kept by the job manager, `log_url` and the log sender set-up: carried along, never inspected.
- VM processes, virtiofs, macOS, network set-up commands and the polling in `wait`: a VM exits with a status at some time.
- `assign_to_runner` and `update_status`: nothing calls them in the modelled protocol.
- Fairness and time: no claim is made that a message arrives, a timer fires or a VM ends.
- LogStream.CursorTheorem: one writer per session; a second request for the same session numbers from one again and overwrites lines.
- LogStore.DbFetcher.Poll: the endless loop around one round is the schedule of the transition system; the scan's items and the point where it ends come from the database.
- VmHost.VmStore.NewVm: files, processes and sockets between the guards are one step that may fail.
- VmHost.ReachableInv: guards take a fresh id for every VM, as the Linux implementation does; what reused ids do to the counters is `Allocator.ExactBooks`.
- VmHost.NoAddressIsLost: addresses taken out of a guard count as held until released by hand; the code itself never takes one.
- GuestSession.GuestServer.HandleGuestConnection: one connection at a time, with an open log channel; the accept loop around it and a failing log channel are not modelled.
- SseManager.SSEConnectionManager.Connect: handlers are not called back into the manager, `onOpen` and `onError` are not recorded, and numbers stand for
  the objects and timers of the page.
- `disconnectAll`: it visits only names with a registered source, so it is not a full teardown; nothing is claimed about it.
- Cloud configuration, role checks, user interface and generated clients: finite cases or routine maps.
