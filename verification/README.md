# Verification of the persistent DAG executor and its companions

A Dafny model of four parts of the repository, with machine-checked proofs.

**The persistent-device DAG executor** (`Dag*.dfy`, `TicketRing.dfy`,
`RingSafety.dfy`).  Scheduler blocks and worker blocks share two ticketed ring
queues, fan-in counters that are decremented by compare-and-swap, a start-up
barrier, a first-error latch and a stall detector.  Every block is an actor; one
step is one atomic operation on shared memory with the local control that follows
it.  A run is a schedule: any sequence of actors.  The task table, the number of
blocks, the interleaving and the task bodies are unbounded.  The main results hold
for every task table, malformed ones included:

- safety: the invariant of `DagInvariant` in every state of every run; each task
  is published, popped, executed, ticketed and retired at most once; a body runs
  only after the bodies of its predecessors;
- certification: a clean finish proves that the table is a well-formed acyclic
  graph and that the publish order is a topological order;
- refinement: a clean finish leaves the memory of the sequential evaluation;
- diagnosis: every recorded error names a defect that the table really has; the
  start-up codes are exact with any number of blocks, and a stall reported by a
  single scheduler block names the first unreachable task and is final for every
  run of the table;
- liveness: every fair run, with any number of scheduler blocks and at least one
  worker block, reaches a verdict and then all blocks return; work that has begun
  is finished even after an error, and after an error no block waits;
- exactness: with one scheduler block, or on a fork-join graph with any number of
  them, the verdict is right in both directions.

`MoeGraph` applies all of this to the mixture-of-experts graph of the examples.

**The device-aware job scheduler** (`JobLog.dfy`, `JobSteps.dfy`, `RunJobs.dfy`).
The scheduler object is a class whose methods are proved against step functions;
the step functions are proved to keep a legal log, a partition of the device pool
and work conservation; the lemmas of `JobLog` say what every legal log satisfies.  `DeviceRange`
is the printer and parser of device specifications.

**The sampling and matrix kernels** (`SampleOrder.dfy`, `Sampling.dfy`,
`Gemm.dfy`), as loops over arrays, against the host references and the plain
matrix product.

**The mock collectives** (`Collectives.dfy`).

`Arithmetic` holds what the other modules share.  `dafny verify dfyconfig.toml`
checks the whole project.

## Model

| member | source | states |
|---|---|---|
| TicketRing.HoldingSlotIsFree | simpler_setup/cuda_callable_compiler.py:685-693 | a pusher that holds a ticket always finds the flag of its slot clear, so its wait ends at once (ring not smaller than the number of pushes) |
| TicketRing.FlagMeansPublished | simpler_setup/cuda_callable_compiler.py:695-711 | the flag of a slot shows `ticket + 1` exactly while that ticket is published and not yet consumed |
| TicketRing.ReadsPushedValue | simpler_setup/cuda_callable_compiler.py:695-711 | the value in the slot of a published ticket is the value pushed under that ticket |
| RingSafety.SysRunKeeps | simpler_setup/cuda_callable_compiler.py:685-748 | the ring invariant holds after every interleaving of any number of producers and consumers, if there is one producer or the ring has a slot for each push |
| RingSafety.CanPopWrongValue | simpler_setup/cuda_callable_compiler.py:685-693 | for two or more producers and every ring smaller than the number of pushes, a run in which a consumer pops a value that was not pushed under its ticket |
| RingSafety.RingSafeIff | simpler_setup/cuda_callable_compiler.py:685-748 | every run pops under each ticket the value pushed under it if and only if there is at most one producer or the ring has a slot for each push |
| DagSmallRing.SmallRingRun | simpler_setup/cuda_callable_compiler.py:713-748 | on n tasks without fan-in and every ring with 1 <= capacity < n, a run that ends with n completions counted and no error although task 0 was never retired |
| DagSmallRing.OnceMeansCounted | simpler_setup/cuda_callable_compiler.py:774-824 | if no task is retired twice, the completion count is the number of retired tasks, for every launch |
| DagSmallRing.RetiresOnceIff | simpler_setup/cuda_callable_compiler.py:685-824 | no run of any launch with n tasks and a given ring retires a task twice if and only if the ring has a slot for each task |
| DagSmallRing.CertifiesIff | simpler_setup/cuda_callable_compiler.py:685-824 | a clean finish certifies the table for all launches with n tasks and a given ring if and only if the ring has a slot for each task |
| DagSteps.SchedStepOk | simpler_setup/cuda_callable_compiler.py:774-889 | every scheduler step keeps the shared invariant, re-establishes the scheduler's own position invariant and leaves alone what the other blocks rely on, for every task table |
| DagSteps.WorkerStepOk | simpler_setup/cuda_callable_compiler.py:894-914 | the same for every worker step |
| DagSteps.RunOk | simpler_setup/cuda_callable_compiler.py:830-915 | the invariant holds after every schedule of every number of blocks on every task table, malformed ones included |
| DagPreserve.BarrierOpens | simpler_setup/cuda_callable_compiler.py:847-850 | the barrier count reaches the number of scheduler blocks only when every one of them has finished its scan |
| DagPreserve.PendingIsFresh | simpler_setup/cuda_callable_compiler.py:786-816 | an edge about to be counted down has not been counted down before, and if the fan-in of its target is positive the target has no owner yet and is not published |
| DagPreserve.CountDownConserves | simpler_setup/cuda_callable_compiler.py:750-763 | counting down an edge keeps the sum of the fan-in and the counted edges equal to the uploaded fan-in |
| DagTheorems.CounterChain | simpler_setup/cuda_callable_compiler.py:695-748 | in every reachable state completed <= completion head <= completion tail <= bodies run <= tasks popped <= ready tail <= task count |
| DagTheorems.EverythingDone | simpler_setup/cuda_callable_compiler.py:818-823 | after a clean finish every task is retired, all three ring counters equal the task count, and every fan-in is zero |
| DagTheorems.CleanFinishCertifies | simpler_setup/cuda_callable_compiler.py:750-824 | for every task table, a run that ends with all tasks completed and no error certifies the table: legal edges, both fan-in copies equal to the true in-degree, known functions, and the publish order is a topological order |
| DagEvents.EventOnce | simpler_setup/cuda_callable_compiler.py:674-915 | a visit, publication, pop, execution, completion ticket or retirement of a task never happens to a task to which it has happened |
| DagEvents.AtMostOnce | simpler_setup/cuda_callable_compiler.py:695-846 | counted along any schedule on any task table, each of those events happens to each task at most once, and exactly once if and only if the history records it |
| DagEvents.ScanBeforeCountDown | simpler_setup/cuda_callable_compiler.py:837-850 | no fan-in is read for a decrement before the strided scans of all scheduler blocks have visited every task exactly once |
| DagEvents.FaninConserved | simpler_setup/cuda_callable_compiler.py:750-763 | in every reachable state the fan-in and the number of counted-down edges add up to the uploaded fan-in, and only edges of the table are counted down |
| DagEvents.PublishedIsReady | simpler_setup/cuda_callable_compiler.py:809-816 | with exact fan-ins a published task has had all its incoming edges counted down |
| DagEvents.DependencyOrder | simpler_setup/cuda_callable_compiler.py:750-912 | a worker dispatches a task only after the body of every predecessor has run exactly once and its edge has been counted down, for any number of blocks |
| DagEvents.PoppedIsPushed | simpler_setup/cuda_callable_compiler.py:695-748 | in every reachable state, a worker or scheduler that is about to clear a slot holds the value pushed under its ticket, and nobody has overwritten the slot |
| DagEvents.ErrorSticks | simpler_setup/cuda_callable_compiler.py:674-683 | the first recorded error is never replaced |
| DagDataflow.SequentialSolves | simpler_setup/cuda_callable_compiler.py:894-912 | executing the tasks one by one in a topological order solves the data-flow equations of the table |
| DagDataflow.SolutionIsUnique | simpler_setup/cuda_callable_compiler.py:894-912 | the data-flow equations of an acyclic table have one solution |
| DagDataflow.ConcurrentRefinesSequential | simpler_setup/cuda_callable_compiler.py:685-915 | on a single-assignment data-flow graph every clean finish, in any interleaving of any number of blocks, leaves the memory of the sequential evaluation |
| DagDiagnosis.OneTooMany | simpler_setup/cuda_callable_compiler.py:809-813 | a pending edge that finds a zero fan-in proves that the uploaded fan-in is smaller than the in-degree |
| DagDiagnosis.ErrorIsTrue | simpler_setup/cuda_callable_compiler.py:774-911 | in every run on any number of blocks, a recorded code and task id name a defect that the table really has (for code 7 with several scheduler blocks a task with a non-zero fan-in; StallIsFinal and FairRunStallsIff say more for one; FairRunStartsUp has the converse for the start-up codes) |
| DagDiagnosis.NoDefect | simpler_setup/cuda_callable_compiler.py:774-911 | a well-formed table has none of the defects that the codes other than 7 report |
| DagStall.UnreachableStays | simpler_setup/cuda_callable_compiler.py:750-846 | a task outside a set that the edges from inside cannot make ready is never published, and no run on any number of blocks completes |
| DagStall.StallIsFinal | simpler_setup/cuda_callable_compiler.py:862-887 | if a run with one scheduler block records the stall code 7 for a task, no run of the same table, with any numbers of blocks and any ring with a slot for each task, ever publishes that task or completes |
| DagStall.FairRunStallsIff | simpler_setup/cuda_callable_compiler.py:862-887 | with one scheduler block, on a table without defects of other kinds, every fair run ends with code 7 for the unreachable task with the smallest id if there is an unreachable task (one outside such a set), and with a clean finish if and only if there is none |
| DagStartUp.OnlyBlockZeroReports | simpler_setup/cuda_callable_compiler.py:851-887 | in every state of every run no block but block 0 is inside the stall detector or about to record code 6 or 7 |
| DagStartUp.MismatchIsFirst | simpler_setup/cuda_callable_compiler.py:837-853 | if the two fan-in copies differ anywhere, no code but 5 or the unknown-function code 1 is ever recorded, and until an error is recorded no scheduler is about to record another code, on any number of blocks |
| DagStartUp.FiveIsFirst | simpler_setup/cuda_callable_compiler.py:837-846 | a recorded code 5 names a task whose fan-in copies differ, and no earlier task of the same scheduler's stride has such a difference |
| DagStartUp.FairRunStartsUp | simpler_setup/cuda_callable_compiler.py:837-889 | with any number of blocks, every fair run ends with code 6 for task 0 if and only if there are tasks, the fan-in copies agree and no task is a source; with known functions it ends with code 5 if and only if the copies differ somewhere |
| DagAlarms.OnlyStallIsPossible | simpler_setup/cuda_callable_compiler.py:774-887 | on a well-formed table no run records any code but 7, for any number of blocks |
| DagAlarms.LoneRunOk | simpler_setup/cuda_callable_compiler.py:855-887 | with one scheduler block the detector's reads are a snapshot: what each of its positions has observed still holds, in every reachable state of every table |
| DagAlarms.NeverExhausted | simpler_setup/cuda_callable_compiler.py:855-887 | on a well-formed graph one scheduler block never has everything published also processed before all tasks are completed |
| DagAlarms.NoFalseAlarm | simpler_setup/cuda_callable_compiler.py:774-887 | with one scheduler block no run on a well-formed table records or is about to record an error |
| DagFalseAlarm.ChainCanStall | simpler_setup/cuda_callable_compiler.py:862-887 | with two or more scheduler blocks, a schedule on which the well-formed chain of three tasks records the stall code 7 |
| DagFalseAlarm.NoFalseAlarmIffOneScheduler | simpler_setup/cuda_callable_compiler.py:855-887 | no well-formed table ever gets an error if and only if the launch has at most one scheduler block |
| DagForkJoin.ForksArePublished | simpler_setup/cuda_callable_compiler.py:837-850 | once the barrier is open, all tasks of a fork-join graph but the join are published |
| DagForkJoin.ForkJoinNeverAlarms | simpler_setup/cuda_callable_compiler.py:855-887 | on a well-formed fork-join graph no run records an error, for any number of scheduler blocks |
| DagProgress.LiveSchedStep | simpler_setup/cuda_callable_compiler.py:685-889 | every scheduler step keeps: each ready ticket a block drew is published or still held, each claimed completion is retired or still being processed, and nobody leaves the loop before the run is over |
| DagProgress.LiveWorkerStep | simpler_setup/cuda_callable_compiler.py:695-721 | every worker step keeps the same, and: each ready ticket a worker drew is handed in or still held |
| DagProgress.IdleHasUnready | simpler_setup/cuda_callable_compiler.py:765-772 | if every block can only poll or wait, everything published has been processed and tasks are missing, then some task has a non-zero fan-in |
| DagLiveness.PollAdvances | simpler_setup/cuda_callable_compiler.py:855-887 | when no other block can act, every read of block 0 brings it strictly closer to a claim or to reporting the stall, whatever stale values it holds |
| DagLiveness.RankStep | simpler_setup/cuda_callable_compiler.py:830-914 | every step lowers a natural-number rank, or ends the run, or changes nothing that another block could notice; a helpful block always does one of the first two |
| DagLiveness.SomeoneHelps | simpler_setup/cuda_callable_compiler.py:851-914 | in every reachable state that is not over some block is helpful |
| DagFairRuns.EventuallyOver | simpler_setup/cuda_callable_compiler.py:851-914 | every fair infinite run on every table reaches completion of all tasks or a recorded error, for any number of scheduler blocks and at least one worker block |
| DagFairRuns.FairRunDecides | simpler_setup/cuda_callable_compiler.py:851-914 | from some step on every fair run shows an error or a clean finish; no error means that the table is a well-formed acyclic graph, and with one scheduler block or on a fork-join graph a well-formed table shows none |
| DagFairRuns.FairRunComputes | simpler_setup/cuda_callable_compiler.py:685-915 | where the stall detector is exact, every fair run on a well-formed data-flow graph reaches the memory of the sequential evaluation and stays there |
| DagReturn.ReturnStep | simpler_setup/cuda_callable_compiler.py:847-914 | after the verdict every step of a block that has not returned lowers the number of steps left, except a wait at the barrier, which changes nothing |
| DagReturn.SomeoneLeaves | simpler_setup/cuda_callable_compiler.py:847-850 | not all blocks that have not returned can be waiting at the barrier |
| DagReturn.FairRunReturns | simpler_setup/cuda_callable_compiler.py:851-914 | the kernel terminates: in every fair run on every table all blocks return, the state then never changes, and its error word is the verdict of FairRunDecides |
| DagReturn.FairRunDelivers | simpler_setup/cuda_callable_compiler.py:685-915 | where the stall detector is exact, every fair run on a well-formed data-flow graph returns without an error and with the memory of the sequential evaluation |
| DagLeftovers.NothingDropped | simpler_setup/cuda_callable_compiler.py:695-824 | in every state of every run, with or without an error: each completion taken is retired, being processed or out of bounds; each dependent of a retired task is illegal, counted down or has fan-in zero; each popped task is ticketed, being executed or has an unknown function; a returned worker has a ticket it never consumed |
| DagLeftovers.FairRunFinishes | simpler_setup/cuda_callable_compiler.py:774-914 | every fair run on every table returns with all begun work finished: every source and every task counted down to zero is published, no ticket is left half-pushed, and every task popped and every completion taken has gone all the way, errors notwithstanding |
| DagLeftovers.WaitFreeAfterError | simpler_setup/cuda_callable_compiler.py:674-772 | after an error nobody waits: under every schedule, fair or not, the blocks together make at most a number of further steps that is fixed when the error is recorded |
| MoeGraph.MoeIsWellFormed | examples/cuda/persistent_moe_dispatch_combine.py:182-252 | the mixture-of-experts table is a well-formed acyclic graph |
| MoeGraph.MoeIsDataflow | examples/cuda/persistent_moe_dispatch_combine.py:182-252 | each buffer of the table is written once and read only by dependents of its writer |
| MoeGraph.MoeIsForkJoin | examples/cuda/persistent_moe_dispatch_combine.py:182-252 | the combine waits for all experts and the experts wait for nobody |
| MoeGraph.SequentialIsGolden | examples/cuda/persistent_moe_dispatch_combine.py:271-292 | evaluating the table one task at a time gives the host's golden output, for all inputs of equal length |
| MoeGraph.GoldenClosedForm | examples/cuda/persistent_moe_dispatch_combine.py:271-292 | each entry of the golden output is 0.46875a + 0.5b + 0.0625ab of the two input entries |
| MoeGraph.CleanFinishIsGolden | examples/cuda/persistent_moe_dispatch_combine.py:271-292 | every clean finish leaves the golden output, for every interleaving and every number of blocks |
| MoeGraph.FairRunIsGolden | examples/cuda/persistent_moe_dispatch_combine.py:295-315 | every launch that the host accepts (ring of at least five slots, any positive numbers of scheduler and worker blocks) returns, in every fair run, with the golden output and no error |
| JobLog.ExactlyOnce | simpler_setup/parallel_scheduler.py:207-278 | at every point of a legal log each started job is running or has a result, exactly once, and no other job appears |
| JobLog.OneResultEach | simpler_setup/parallel_scheduler.py:280-335 | when nothing runs any more, the results are those of the started jobs, one each |
| JobLog.PoolRespected | simpler_setup/parallel_scheduler.py:107-117 | at every point of a legal log the devices in use are in the pool, counted with multiplicity, and the cap on running jobs is respected |
| JobLog.NoSharedDevice | simpler_setup/parallel_scheduler.py:107-117 | with distinct device ids two running jobs never share a device |
| JobLog.FailedIff | simpler_setup/parallel_scheduler.py:275-276 | the failure flag is set exactly when some result has a non-zero exit code |
| JobLog.NoStartAfterFailure | simpler_setup/parallel_scheduler.py:285-301 | under fail-fast nothing starts after the first failed result |
| JobLog.WorkConserving | simpler_setup/parallel_scheduler.py:207-301 | whenever a result comes in and no failure has stopped the batch, all jobs had been started, or the cap was reached, or the next job asked for more devices than were free |
| JobSteps.PartitionedIff | simpler_setup/parallel_scheduler.py:107-117 | the device invariant says exactly that the free devices and those of the running jobs are together the pool, as multisets |
| JobSteps.LaunchGood | simpler_setup/parallel_scheduler.py:207-251 | a launch keeps the device partition and the legal log, and starts the next job of the list on the devices that have been free longest; a failed spawn gives its devices back |
| JobSteps.RaiseKeepsPoolIff | simpler_setup/parallel_scheduler.py:215-234 | a start that raises leaves the pool whole if and only if the command could be built or the job was granted no device |
| JobSteps.BuildLosesDevice | simpler_setup/parallel_scheduler.py:215-234 | one job on a pool of one device: if its command cannot be built, the device is neither free nor in use |
| JobSteps.FillGood | simpler_setup/parallel_scheduler.py:282-283 | filling leaves a head that cannot be started (BlockedIsSaturated says what that means) or reports the job whose start raised, and conserves queued plus running jobs |
| JobSteps.BlockedIsSaturated | simpler_setup/parallel_scheduler.py:207-213 | when filling has ended and no failure has stopped the batch, all jobs are started, or the cap is reached, or the next job asks for more devices than the pool minus those in use |
| JobSteps.CollectGood | simpler_setup/parallel_scheduler.py:261-277 | reaping any running child keeps the device partition, the legal log, the order of the free devices, work conservation and the queue |
| JobSteps.PassGood | simpler_setup/parallel_scheduler.py:285-311 | every pass of the loop keeps the invariant and brings termination closer; it is stuck only if the cap is below one; if the callback raises, the batch is cancelled if and only if fail-fast had seen an earlier failure |
| JobSteps.PassPunctual | simpler_setup/parallel_scheduler.py:255-311 | every pass records each result at a tick at which its child is dead and the children started before it that still ran were alive when polled |
| JobSteps.CleanUpKeepsPool | simpler_setup/parallel_scheduler.py:312-332 | the clean-up gives back the devices of the children it terminates |
| JobSteps.TerminatesTheThird | simpler_setup/parallel_scheduler.py:285-332 | a batch of three jobs in which the callback raises after the cancellation and the third job is terminated |
| RunJobs.RunState.constructor | simpler_setup/parallel_scheduler.py:190-192 | the initial state: all devices free, all jobs queued, an empty log |
| RunJobs.RunState.AcquireDevices | simpler_setup/parallel_scheduler.py:107-113 | refuses exactly when too few devices are free; else takes a prefix of the free list, of the asked length, and keeps the rest |
| RunJobs.RunState.ReleaseDevices | simpler_setup/parallel_scheduler.py:116-117 | appends the devices to the free list |
| RunJobs.RunState.TryLaunchHead | simpler_setup/parallel_scheduler.py:207-251 | performs the launch step whose invariants LaunchGood and BlockedIsSaturated state |
| RunJobs.RunState.Fill | simpler_setup/parallel_scheduler.py:282-283 | performs launch steps until the queue is empty, blocked or a launch raises |
| RunJobs.RunState.Poll | simpler_setup/parallel_scheduler.py:258-258 | reports whether a child is dead, at the cost of one tick |
| RunJobs.RunState.Collect | simpler_setup/parallel_scheduler.py:261-277 | removes a dead child, frees its devices and records its result |
| RunJobs.RunState.ReapOne | simpler_setup/parallel_scheduler.py:255-278 | polls in start order and collects the first dead child, or none |
| RunJobs.RunState.Refill | simpler_setup/parallel_scheduler.py:294-301 | cancels the batch on the first failure under fail-fast, else performs launch steps |
| RunJobs.RunState.CleanUp | simpler_setup/parallel_scheduler.py:312-332 | terminates exactly the running children of a cancelled batch and frees their devices |
| RunJobs.RunState.Pass | simpler_setup/parallel_scheduler.py:285-311 | performs one pass of the loop, whose invariants PassGood states |
| RunJobs.Dispatch | simpler_setup/parallel_scheduler.py:280-311 | the dispatch loop terminates: with every started job reaped once, with the job whose start raised, or with the job on whose result the callback raised |
| RunJobs.TerminatedIff | simpler_setup/parallel_scheduler.py:312-332 | children are terminated exactly when the callback has raised on a result reaped after the cancellation, and then they are the ones still running |
| RunJobs.AllTrue | simpler_setup/parallel_scheduler.py:261-277 | every result carries the name and exit code of its own job and the devices on which that job was started, as many as it asked for |
| RunJobs.Run | simpler_setup/parallel_scheduler.py:139-335 | rejects exactly the batches with a job larger than the pool; otherwise the log is legal, jobs start in list order on the devices free longest, no job is held back that could run, and each child is reaped when a poll finds it dead; if nothing raises every started job gets exactly one true result, and unless fail-fast stopped a batch with a failure all jobs start if and only if the cap allows one; a child is terminated if and only if the callback raises on a result reaped after the cancellation while another child runs |
| DeviceRange.SortSet | simpler_setup/parallel_scheduler.py:392-392 | the strictly ascending list of the elements of a set |
| DeviceRange.DeviceRangeToList | simpler_setup/parallel_scheduler.py:365-392 | fails exactly when the specification has no meaning, else returns the strictly ascending list of the ids it means |
| DeviceRange.FailsIff | simpler_setup/parallel_scheduler.py:384-391 | a specification fails if and only if some part between commas is not blank and is neither a number nor two numbers around its first minus sign |
| DeviceRange.MeansIff | simpler_setup/parallel_scheduler.py:382-391 | otherwise it means the union of its parts: the number of a number, all ids of a range, nothing for a blank part |
| DeviceRange.SplitPieces | simpler_setup/parallel_scheduler.py:383-383 | the parts have no comma, and joined by commas they are the specification |
| DeviceRange.MeaningOfItems | simpler_setup/parallel_scheduler.py:365-392 | every comma-separated list of blanks, numbers and ranges, with any blanks around the numbers, means exactly the ids for which its items stand |
| DeviceRange.ParseItems | simpler_setup/parallel_scheduler.py:365-392 | parsing such a list gives those ids, each once and in ascending order |
| DeviceRange.AcceptedForm | simpler_setup/parallel_scheduler.py:389-391 | a text that `int` accepts consists of blanks, at most one sign, digits with single underscores between them, and blanks |
| DeviceRange.AcceptsUnsigned | simpler_setup/parallel_scheduler.py:389-391 | every such text without a sign is accepted, with the value of its digits |
| DeviceRange.AcceptsSigned | simpler_setup/parallel_scheduler.py:389-391 | and every such text with a sign, with the signed value |
| DeviceRange.Signs | simpler_setup/parallel_scheduler.py:389-391 | a number may carry a sign or leading zeros |
| DeviceRange.Underscores | simpler_setup/parallel_scheduler.py:389-391 | single underscores between digits change nothing; any other underscore is an error |
| DeviceRange.DecimalForm | simpler_setup/parallel_scheduler.py:98-104 | numbers are printed in base ten, most significant digit first, with a minus sign if negative |
| DeviceRange.PrintedForm | simpler_setup/parallel_scheduler.py:89-104 | the printed form of any list, given its elements in ascending order: nothing, the number, a range exactly when there are two or more and each is one more than the last, or all elements between commas |
| DeviceRange.SortedIsUnique | simpler_setup/parallel_scheduler.py:392-392 | a strictly ascending list is determined by its elements |
| DeviceRange.RoundTrip | simpler_setup/parallel_scheduler.py:89-104 | parsing the printed form of any list of non-negative ids gives exactly its ids, through decimal digits, splitting and stripping |
| DeviceRange.NegativeFails | simpler_setup/parallel_scheduler.py:89-104 | printing any list with a negative id gives a specification that does not parse |
| DeviceRange.RoundTripIff | simpler_setup/parallel_scheduler.py:395-397 | parsing undoes printing if and only if no id is negative |
| DeviceRange.PrintAndParse | simpler_setup/parallel_scheduler.py:365-397 | parsing the printed list gives its distinct ids in ascending order (the list itself if it is ascending), and fails if and only if an id is negative |
| DeviceRange.ReprintKeepsMeaning | simpler_setup/parallel_scheduler.py:365-397 | reprinting any accepted specification as its list of ids keeps its meaning |
| Sampling.AlreadySelected | simpler_setup/gluon_gen.py:833-836 | finds a token among the indices of the earlier ranks |
| Sampling.PickBest | simpler_setup/gluon_gen.py:830-843 | the masked maximum: the first open token in the order by value and index, or none |
| Sampling.NextBest | simpler_setup/gluon_gen.py:830-843 | after any number of ranks the next masked maximum is the next token of the reference ranking, or none if that is used up |
| Sampling.TopKRow | simpler_setup/gluon_gen.py:828-846 | writes the first k tokens of the ranking of the values not below the lowest float, and touches no other row |
| Sampling.TopKIff | examples/cuda/gluon_topk_sampling.py:136-145 | kernel and reference agree exactly when at least k tokens are not below the lowest finite float |
| Sampling.TopKOnFinite | examples/cuda/gluon_topk_sampling.py:136-145 | on rows of finite floats the kernel takes the first k of the order by descending value and ascending index, all distinct |
| Sampling.TopKMissesBelowLowest | simpler_setup/gluon_gen.py:830-846 | every one-token row below the lowest finite float gets index 1 and the lowest float instead of its token |
| Sampling.LowestFloat | simpler_setup/gluon_gen.py:830-830 | the bound is the lowest finite float32: minus (2^24 - 1) times 2^104 |
| Sampling.TopKMeaning | simpler_setup/gluon_gen.py:827-846 | on finite floats the outputs are the values of k distinct tokens listed by descending value and ascending index, and every other token comes after them in that order |
| Sampling.TopKGrid | simpler_setup/gluon_gen.py:827-846 | every program of the grid writes its own row of values and indices and keeps the others |
| Sampling.TopPRow | simpler_setup/gluon_gen.py:882-916 | the count is that of the shortest prefix of the ranking with mass at least p, capped; values, indices, padding and mass are those of that prefix |
| Sampling.TopPReference | examples/cuda/gluon_topp_sampling.py:155-176 | the same of the host reference |
| Sampling.TopPGrid | simpler_setup/gluon_gen.py:880-917 | every program of the grid writes its own row of values, indices, count and mass and keeps the others |
| Sampling.CutIsUnique | examples/cuda/gluon_topp_sampling.py:155-176 | the row, p and the cap determine the count |
| Sampling.CompareTopP | examples/cuda/gluon_topp_sampling.py:155-176 | kernel and reference agree in count, mass, values and indices on every row of finite floats |
| Sampling.RankingIsHeaviest | examples/cuda/gluon_topp_sampling.py:155-176 | no set of j tokens weighs more than the first j of the ranking |
| Sampling.CutIsOptimal | simpler_setup/gluon_gen.py:882-916 | no set of fewer tokens than the kernel takes reaches mass p |
| Sampling.TopPMeaning | simpler_setup/gluon_gen.py:882-916 | the taken tokens are the first ones by value and index, with their values, then padding; their values add up to the mass, which reaches p unless the cap or the row ends first, and no shorter prefix reaches p |
| Sampling.RowMax | simpler_setup/gluon_gen.py:964-968 | the kernel's row maximum |
| Sampling.SelectFrom | simpler_setup/gluon_gen.py:971-1004 | the first tokens at or above the threshold in reference order, padded, and their number |
| Sampling.MinPRow | simpler_setup/gluon_gen.py:962-1004 | the min-p output for the factor times the row maximum; MinPMeaning says what that is token by token |
| Sampling.MinPProgram | simpler_setup/gluon_gen.py:961-1005 | one program writes its row of values, indices and count and nothing else |
| Sampling.MinPGrid | simpler_setup/gluon_gen.py:961-1005 | every program of the grid writes its own row of values, indices and count and keeps the others |
| Sampling.MinPReference | examples/cuda/gluon_minp_sampling.py:153-170 | the same of the host reference with its own maximum, filter, sort, cut and padding |
| Sampling.MinPIsUnique | examples/cuda/gluon_minp_sampling.py:153-170 | the row, the factor and the cap determine all outputs |
| Sampling.MinPMeaning | simpler_setup/gluon_gen.py:961-1004 | the taken tokens are the first ones by value and index; each is at least the factor times every value of the row, and unless the cap is reached every token for which that holds is taken |
| Sampling.CompareMinP | examples/cuda/gluon_minp_sampling.py:153-170 | kernel and reference agree in count, values and indices on every non-empty row of finite floats |
| Sampling.MinPIsPrefix | examples/cuda/gluon_minp_sampling.py:153-170 | the tokens that pass the threshold are a prefix of the full ranking |
| Gemm.ScalarProgram | simpler_setup/gluon_gen.py:187-195 | one program writes its dot product and nothing else |
| Gemm.ScalarGemm | simpler_setup/gluon_gen.py:187-195 | the programs of the scalar grid, in any order, compute the plain matrix product |
| Gemm.DotPicks | simpler_setup/gluon_gen.py:187-195 | a column that is zero but for one entry picks that entry of the row, so the unit matrix is the unit of the product |
| Gemm.DotAdds | simpler_setup/gluon_gen.py:187-195 | the product is additive in the second matrix |
| Gemm.Multiply | simpler_setup/gluon_gen.py:347-348 | adds the product of two blocks to the accumulator |
| Gemm.AwaitLoads | simpler_setup/gluon_gen.py:341-345 | announcing, issuing asynchronous loads and waiting completes one barrier phase with nothing in flight, in whatever order the loads arrive, and the flipped phase is the parity of the completed waits |
| Gemm.ComputeBlock | simpler_setup/gluon_gen.py:322-348 | the accumulator ends with the block of A*B + C, after one wait for C and one for each K tile, with the phase equal to the parity of the waits |
| Gemm.TileProgram | simpler_setup/gluon_gen.py:310-356 | a program writes exactly its block of A*B + C |
| Gemm.OneProgram | simpler_setup/gluon_gen.py:378-378 | each output entry lies in the block of exactly one program of the grid |
| Gemm.WrittenOnce | simpler_setup/gluon_gen.py:378-386 | in a launch without repetitions each output entry is written by exactly one program |
| Gemm.GridIsLaunch | simpler_setup/gluon_gen.py:378-378 | the rounded-up grid starts exactly the programs that the tiles need |
| Gemm.RunTiled | simpler_setup/gluon_gen.py:359-386 | accepts exactly the shapes that fit together and are divisible by the tile, and then leaves A*B + C, for every order of the programs |
| Collectives.SumPicks | simpler_setup/cuda_comm.py:283-283 | if all buffers but one are zero at an entry, the sum over the ranks is the entry of that one |
| Collectives.SumAdds | simpler_setup/cuda_comm.py:283-283 | the sum over the ranks is additive |
| Collectives.AllReduceEntries | simpler_setup/cuda_comm.py:281-284 | accepts exactly one buffer for each of at least one rank, all of one length, and then entry i of every rank is the sum over the ranks of entry i |
| Collectives.ReduceScatterIff | simpler_setup/cuda_comm.py:286-294 | accepts exactly the non-empty buffers of equal length divisible by the world size |
| Collectives.ReduceScatterEntry | simpler_setup/cuda_comm.py:286-294 | entry i of rank r is the sum over the ranks of entry r * size + i, with size the length divided by the world size |
| Collectives.AllGatherShape | simpler_setup/cuda_comm.py:296-299 | accepts exactly one buffer for each of at least one rank, all of one length, and gives every rank a buffer of the total length |
| Collectives.AllGatherEntry | simpler_setup/cuda_comm.py:296-299 | every rank gets the buffers one after the other in rank order |
| Collectives.ScatterThenGather | simpler_setup/cuda_comm.py:281-299 | whenever reduce-scatter is accepted, gathering its chunks gives every rank the all-reduce |
| Collectives.AllReducePermutes | simpler_setup/cuda_comm.py:281-284 | renumbering the ranks by any permutation does not change the all-reduce, including its refusals |

## Findings

- The stall detector can raise a false alarm with two or more scheduler blocks:
  its four counters are read one after the other
  (simpler_setup/cuda_callable_compiler.py:863-866 and 874-877), and another
  scheduler can retire and publish tasks in between.  `DagFalseAlarm.ChainCanStall`
  is a schedule on a chain of three tasks; `NoFalseAlarmIffOneScheduler` is the
  exact condition on the launch, and `DagForkJoin.ForkJoinNeverAlarms` shows that
  the shape of the mixture-of-experts graph is safe with any number of them.
- With two or more producers and a ring smaller than the number of pushes, two
  pushers can pass the wait on one slot and a consumer pops a wrong value
  (simpler_setup/cuda_callable_compiler.py:686-692): `RingSafety.CanPopWrongValue`;
  `RingSafeIff` is the exact condition for the ring on its own.
- `format_device_range` is documented as the inverse of `device_range_to_list`;
  it is not for negative ids (`DeviceRange.NegativeFails`, `RoundTripIff`).
- The executor relies on a slot for each task.  With fewer, two workers can pass
  the wait on one completion slot (simpler_setup/cuda_callable_compiler.py:713-721),
  so that one task is counted twice and another one never, and a malformed table
  can end in a clean finish: `DagSmallRing.SmallRingRun`, with the exact conditions
  `RetiresOnceIff` and `CertifiesIff`.
- `run_jobs` documents that fail-fast terminates running children.  The loop keeps
  reaping until none is left (simpler_setup/parallel_scheduler.py:285-301).  The
  clean-up at lines 313-332 terminates a child if and only if the completion
  callback (line 293) raises on a result reaped after the cancellation while
  another child runs: `RunJobs.TerminatedIff` and the last clauses of `RunJobs.Run`;
  `JobSteps.TerminatesTheThird` is such a run.
- `build_cmd` is called after the devices are taken and before the `try` block
  (simpler_setup/parallel_scheduler.py:215-234), so a raise there loses them.  A
  start that raises leaves the pool whole if and only if the command could be built
  or the job was granted no device: `JobSteps.RaiseKeepsPoolIff`;
  `JobSteps.BuildLosesDevice` is an input that loses a device.
- The top-k kernel equals its reference exactly when k tokens are not below the
  lowest finite float (`Sampling.TopKIff`, `TopKMissesBelowLowest`).  A real below
  that bound stands for minus infinity, the one float32 value below it, which the
  kernel can receive.

## Left out

- Weak memory effects and the threads inside a block: memory is sequentially
  consistent, and a block is one actor, so a task body is a sequence of buffer
  loads followed by one buffer store.
- Unsigned 32-bit wrap-around of tickets and counters: numbers are unbounded.
- The error latch is one step; the compare-and-swap and the two writes of code and
  task id that follow it are not separated.
- The invariant and the theorems of the executor are for rings with a slot for each
  task; for smaller ones the model has the counterexamples and exact conditions of
  `RingSafety` and `DagSmallRing`.
- Scheduler statistics counters, which no block reads.
- A launch without worker blocks, which never executes a task.
- Fairness is assumed in the liveness results: every block is scheduled again and
  again.
- Validation of task functions and the text of the generated dispatch: the model
  has the set of registered function ids.
- In the job scheduler every child dies at some time of a clock, which is a
  parameter; output pumping, durations, keyboard interrupts, the result records of
  terminated children, which no caller sees, and the session timeout handler are not
  modelled.
- Text beyond ASCII in device specifications: other digits and blanks that Python
  accepts.
- Floating-point rounding, plus infinity, NaN and the rounding to seven digits in the
  references: values are exact reals, and a real below the lowest finite float
  stands for minus infinity.
- The shape and range checks of the sampling launch wrappers; `maxK` and `k` are
  parameters of the kernels.
- The FlashAttention, softmax, normalisation and activation kernels: library
  functions of the target.
- `send_recv` and the NCCL and UCCL runtimes: thin wrappers.
- The NVIDIA toolchain, caches, ELF parsing, serving shims and probes: process and
  file plumbing.
