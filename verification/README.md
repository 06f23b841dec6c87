# A verified model of fsbench

fsbench is a distributed file-system benchmark.  One server drives a number of workers through rounds, one for every
test case, thread count and operation.  In a round every worker gets a directory tree, prepares it, waits at a barrier,
runs its parallel clients over all files of the tree, and reports its counters; the server sums them up.

The project models that system in Dafny and proves what its users rely on:

* **the rounds** between the server, its handler goroutines and the workers, as a step system in which any enabled step
  may come next and connections may drop at any time (`RoundProtocol`, its invariant in `ProtocolInvariant` and
  `ProtocolSteps`, the results in `ProtocolTheorems`, `ProtocolProgress` and `ProtocolRecovery`);
* **the clients of a worker** on their bounded channel, in every interleaving (`ClientPool`), the **directory trees**
  (`WorkTree`, `Text`), the **file-system client and operations** (`FileSystem`, `WorkItems`) and the **counters and
  reports** (`Counters`, `Reporting`, `BenchmarkResults`);
* **all of these together** as one step system (`BenchmarkRun`).  What a round does to the file system is given in closed
  form, whichever of its operations fail (`RoundFiles`, `RoundEffects`); the invariant of the whole system is that the disk
  is always that of the operations done so far (`RunInvariant`, `RunSteps`), and that the counters say which of them
  succeeded (`RunCounts`).  It follows for every benchmark on every disk that totals are conserved, interleavings agree
  (`RunTheorems`, with an application in `Rewriting`), every maximal run is complete (`RunProgress`), and with reordered
  tasks nobody gets back what it wrote (`Rotation`);
* **benchmarks in which nothing fails**: rounds in cycles on a disk where no path clashes (`SoundRounds`, `SoundRuns`), which
  directories there are at any time and which are left (`RunDirs`, with an instance in `MixedDepths`);
* **the configuration**: how defaults are filled in (`Configuration`), what sizes become on their way to the workers
  (`ByteSizes`), which rounds are run under which names (`Schedule`, `ScheduleTheorems`), what the texts
  of operations stand for (`OperationNames`), and which configurations are ones the theorems apply to (`ConfiguredRun`);
* **the payload generator** (`Payload`).

Runs are sequences of steps; a theorem about `Execute(c, steps)` or `Run(c, fs, acts)` is about every interleaving.
Safety holds with dropped connections; progress is claimed as long as no connection has dropped that is still needed, and
is lost exactly then.  The main results are `RunTheorems.TotalsOfRound`, `RunTheorems.RunsAgree`, `RunProgress.RunsToTheEnd`,
`RunProgress.CompletableIffAllViable`, `ConfiguredRun.AnyBenchmark`, `ConfiguredRun.Benchmark`, `SoundRuns.NothingFails`,
`RunDirs.ClearedLeafIsLeftIff`, `ProtocolTheorems.Barrier`, `ProtocolProgress.CompletesIffWorkInEveryRound` and
`ByteSizes.CarriedTwice`.

What the code does not enforce is asked for explicitly.  Every claim about whole runs asks for at least one worker, thread
counts and widths of at least one (decoding a define already rejects depth zero), and a positive block size where a file is
larger than a block (`RoundFiles.Workable`); claims about counters ask besides that no test name, operation and thread count
come together twice.  Only the claims that nothing fails ask for operations in cycles that start with writing and end with
deleting, and for nothing in the way on the file system (`ConfiguredRun.Ready`, `RoundFiles.Sound`; for tests in cycles
`ConfiguredRun.ReadyIffSound` says that the two are the same).

Where the source's comments and its code differ, the model follows the code: a printed size may reach 1024 of its unit
(pkg/common/bytes.go:28-38 says the number is the smallest one of at least 1; 1048575 prints as "1024K"), the payload
alphabet also has parentheses (pkg/worker/fs.go:15 against pkg/worker/fs.go:170), and bytes are counted for failed
operations too (pkg/worker/workItems.go:122, pkg/worker/workItems.go:150).

Verify with `dafny verify --resource-limit 2000000 --verification-time-limit 0 dfyconfig.toml`.

## Model

| member | source | states |
|---|---|---|
| ConfiguredRun.AnyBenchmark | cmd/server/main.go:132-235 | Every run without dropped connections of any benchmark, with whatever operations in whatever order and on any disk, is stuck exactly when all rounds are complete; then the disk is the one the plan gives for the first one, and each of the Σ threads·operations rounds is recorded with the totals of its work, failures included. |
| ConfiguredRun.Benchmark | cmd/server/main.go:132-235 | Every such run of a ready configuration has no failed operation, is stuck exactly when all rounds are complete, and then the file system has its first files again and exactly the directories of the plan, and each round is recorded with the totals of its work, all of it successful. |
| ConfiguredRun.ReadyIffSound | cmd/server/main.go:148-199 | For tests whose operations come in cycles: no file of a test is on the way to an anchor, nothing is on the way to a leaf directory and none of the files is there, if and only if the theorems about runs in which nothing fails apply. |
| ConfiguredRun.OrdinaryIsReady | pkg/common/configFile.go:323-360 | Differently named tests without repeated thread counts or operations, whose operations come in cycles, on fresh anchors, are a ready configuration. |
| ConfiguredRun.SomethingIsReady | cmd/server/main.go:148-158 | A small test with all four operations and two thread counts is one, for any number of workers: eight rounds. |
| RoundFiles.FileOnTheWay | pkg/worker/workItems.go:26-28 | A file of any tree is on the way to a leaf directory of any other, of any width and depth on any anchor, if and only if it is on the way to the anchor. |
| ConfiguredRun.DecodedSizesAreValid | pkg/common/configFile.go:90-121 | Sizes for which the client does not divide by zero are still so after being printed and parsed on the way to the workers. |
| ConfiguredRun.ConfiguredWork | pkg/common/configFile.go:81-88 | A round on a define has width^depth·files operations for each worker, width^depth more when writing; reads and writes move the size for each file, stats and deletes nothing; a written file has the size, or whole blocks of the workload's block size above one. |
| ConfiguredRun.FilesAreAtTheAnchor | pkg/worker/worker.go:176-178 | All files of a test are below the directory that its absolute anchor names, component by component. |
| ConfiguredRun.SetUpAsConfigured | cmd/server/main.go:137-146 | A run has the configured number of workers, and they exchange trees if and only if the configuration says so and the round does not write. |
| ConfiguredRun.Housekeeping | pkg/worker/worker.go:148-156 | For every ready configuration, tests of any depths: whenever a clearing round is over, a leaf directory of it is left if and only if a file there was at first, or a directory there was before the round, is below it. |
| ConfiguredRun.SameDepthsLeaveNothing | pkg/worker/worker.go:148-156 | So with one depth per anchor, on anchors apart with nothing below them at first, none is left. |
| MixedDepths.MixedDepthsLeave | pkg/worker/workItems.go:222-225 | A concrete family: after a clearing test of one depth, a second one on the same anchor leaves its leaf directory if and only if the first was deeper by at least two levels. |
| MixedDepths.MixedDepthsFail | pkg/worker/worker.go:148-156 | In every run of these two tests, the removal of that directory fails if and only if the first was deeper by at least two levels. |
| ConfiguredRun.CompleteLeavesNothing | cmd/server/main.go:148-234 | At the end of a complete run there are exactly the files there were at first. |
| ConfiguredRun.ReadyAgain | cmd/server/main.go:148-234 | The configuration is ready again on the disk that a complete run leaves, with or without housekeeping. |
| RunTheorems.SettledRuns | cmd/server/main.go:150-200 | Whenever the server is between rounds the file system, files with their lengths and directories, is the one that the plan gives for the first one, whatever the interleaving, whichever operations failed and whichever connections dropped. |
| RunTheorems.FileSystemsAgree | cmd/server/main.go:150-200 | Whenever two runs are between rounds after the same number of rounds, their file systems are the same. |
| RunTheorems.RunsAgree | cmd/server/main.go:148-234 | Confluence: any two complete runs of any benchmark on any disk leave the same file system and record the same numbers of successful and failed operations and of bytes for every round. |
| RunTheorems.AllRecorded | cmd/server/main.go:194-203 | Whenever the server is between rounds, every round so far has been recorded. |
| RunTheorems.RecordedResults | pkg/worker/prometheus.go:139-159 | A completed round is recorded with one result of each worker, in some order: as successful it has the operations that would have succeeded on their own before the round, successful and failed ones together are one per file and one per directory made, and the bytes are those of all of them. |
| RunTheorems.TotalsOfRound | cmd/server/main.go:203-203 | Conservation, in every run on every disk: successful and failed operations of every completed round add up to workers·width^depth·files, and workers·width^depth more when writing; the successful ones are exactly those that would have succeeded on their own before the round; the bytes are the requested size for each file read or written, failed ones included. |
| RunTheorems.NoFailuresIff | pkg/worker/workItems.go:99-199 | The recorded number of failures of a round is zero if and only if every operation of the round would have succeeded on its own before it. |
| Rewriting.SecondWriteFails | pkg/worker/fs.go:120-136 | In every run, a round that writes the files of an earlier one again, nothing having been deleted in between, as with the operations "write" and "read" and two thread counts (pkg/common/configFile_test.go:49), fails for every file and counts all of them and their bytes. |
| SoundRuns.NothingFails | pkg/worker/worker.go:30-49 | With rounds in cycles and no clash of paths, no worker counts a failed operation in any run, dropped connections included: not for making directories, exclusive creates of later thread rounds, full-block reads, stats or deletes, with or without rotation. |
| SoundRuns.FilesBetweenRounds | cmd/server/main.go:150-200 | Then the files between rounds, and their lengths, are the first ones and those of the last round, unless that deleted them. |
| SoundRuns.SettledFiles | pkg/worker/fs.go:108-155 | Path by path: after deleting exactly the first files; otherwise these and every file of every tree of the round at its full length, and no others. |
| SoundRuns.WrittenLength | pkg/worker/fs.go:54-68 | The length is the requested size, or rounded up to whole blocks, by less than a block, if it exceeds one. |
| SoundRuns.FullResults | pkg/worker/prometheus.go:139-159 | Then each recorded result of a completed round reports exactly one worker's work of that round and no failure. |
| SoundRuns.FullTotalsOfRound | cmd/server/main.go:203-203 | And their sum is exactly the work of the round, all of it successful. |
| RunProgress.SomebodyCanAct | cmd/server/main.go:132-234 | Deadlock freedom of the whole system: as long as no connection has dropped that is still needed, some step that gives up no connection is possible until all rounds are complete. |
| RunProgress.RunsToTheEnd | cmd/server/main.go:132-234 | A run without drops is stuck exactly when complete, and complete exactly after a number of steps that only the plan and the workers determine. |
| RunProgress.ActCounts | pkg/worker/worker.go:124-174 | As long as no needed connection is given up, every step of the system, whoever makes it, uses up exactly one of the steps that are left, whether an operation fails or not. |
| RunProgress.CompletedRun | cmd/server/main.go:132-234 | Any run without drops can be carried on to completion. |
| RunProgress.SomeRunCompletes | cmd/server/main.go:132-234 | Every workable benchmark has a complete run. |
| RunProgress.CompletableIffAllViable | cmd/server/main.go:132-274 | After whatever has happened, dropped connections included, a run of the whole system can still be completed if and only if every connection is up or has delivered its worker's result of the last round. |
| SoundRounds.RoundAsPlanned | cmd/server/main.go:150-200 | With rounds in cycles and no clash of paths, a round that starts on the disk the ones before it leave adds exactly its files and the directories of its leaves, or removes exactly its files and those of its leaf directories that nothing is below. |
| RunDirs.DirectoriesBetweenRounds | pkg/worker/worker.go:82-92 | Whenever the server is between rounds, the directories are exactly those computed that way from the plan and the first file system, whatever the interleaving, with or without rotation. |
| RunDirs.LeafIsLeftIff | pkg/worker/worker.go:148-156 | By that computation a leaf directory of a clearing round is left if and only if a file there was at first, or a directory there was before the round, is below it. |
| RunDirs.ClearedLeafIsLeftIff | pkg/worker/worker.go:148-156 | The same of the file system every run has when the round is over, for every sound plan. |
| RunDirs.DirectoryIsThereIff | pkg/worker/workItems.go:67-81 | A directory is there before a round exactly if it was there at first, or was on the way to a leaf of a round that wrote, and no round has removed it since. |
| RunDirs.RemovingLeaf | pkg/worker/workItems.go:222-225 | In every run, whenever a worker removes a leaf directory, the removal succeeds if and only if no file there was at first and no directory there was before the round is below it, whichever other directories are gone already. |
| RunSteps.ActKeepsInv | pkg/worker/worker.go:51-121 | Every step of the composed system keeps the invariant: how far each worker and its clients are, and that the disk is the one given by the jobs done and the leaf directories made or removed so far, whichever operations fail. |
| RunSteps.EveryRunKeepsInv | pkg/worker/worker.go:51-121 | The invariant holds after every run. |
| RunSteps.JobHere | pkg/worker/worker.go:43-46 | A client's operation succeeds in the midst of a run if and only if it would have if it had been the first of its round. |
| RunSteps.JobTakesEffect | pkg/worker/worker.go:43-46 | And it changes the disk by its own file only. |
| RunSteps.MakingHere | pkg/worker/worker.go:82-92 | Making a leaf directory in the midst of a run succeeds if and only if nothing was in the way before the round, and adds the directories that were missing. |
| RunSteps.CleaningHere | pkg/worker/worker.go:148-155 | Removing a leaf directory succeeds if and only if it would have with all files of the round deleted and no other leaf directory removed. |
| RunSteps.CleanerIsThrough | pkg/worker/worker.go:141-155 | Whenever a worker removes a leaf directory, all files of the round in that directory have been dealt with before. |
| RunSteps.JobIsNew | pkg/worker/worker.go:163-170 | No job that a client is about to do has been done before, by any worker on any tree. |
| RunCounts.ActKeepsCounts | pkg/worker/workItems.go:99-199 | Every step of the composed system keeps: the counters of every worker have one success for each of its operations of the round that would have succeeded before it, one failure for each other, the bytes of all, and nothing under the names of later rounds. |
| RunCounts.ReportIsFaithful | pkg/worker/worker.go:107-111 | A worker that reports after doing all its jobs reports exactly the work asked for, failed operations included. |
| RunInvariant.TreesArePermutation | cmd/server/main.go:164-172 | The trees of a round are a permutation of the workers; reordered, and with two workers or more, nobody gets the tree it wrote. |
| BenchmarkPlan.TreesRotate | cmd/server/main.go:164-172 | Everybody writes the tree of its own number; reordered, everybody gets in any other round the one that its right neighbour writes, which with two workers or more is never the one it writes itself; otherwise its own. |
| Rotation.WorksOnOneTree | cmd/server/main.go:166-172 | In every run, the files a worker has worked on in a round are all of its own tree when writing or without reordering, and otherwise all of its right neighbour's. |
| Rotation.NobodyGetsItsOwn | cmd/server/main.go:166-172 | With reordered tasks and two workers or more, no file that a worker reads, checks or deletes is one that it wrote in a round on the same define, in any runs and at any time. |
| RunInvariant.NewJobNotDone | pkg/worker/worker.go:180-197 | The files of a job not yet done by its worker have not been touched by any other worker in the round. |
| RoundEffects.DoingOne | pkg/worker/workItems.go:99-199 | In the midst of a round, whichever of its operations came before and however they ended, an operation on a file not yet worked on has the outcome given by the disk before the round, and takes the disk to the one given by one more file. |
| RoundEffects.PreparingOne | pkg/worker/workItems.go:67-81 | So has making a leaf directory. |
| RoundEffects.ClearingOne | pkg/worker/workItems.go:222-225 | So has removing a leaf directory whose files have been dealt with: it never depends on which other leaf directories are gone. |
| RoundEffects.SucceedsAsIfAlone | pkg/worker/workItems.go:99-199 | The outcome given is that of the operation done alone on the disk before the round. |
| ProtocolTheorems.Barrier | cmd/server/main.go:185-193 | Over all runs with drops: nobody is sent more "start work" messages than anybody has answered "preparations done", and nobody gets the "init" of a round before everybody reported the one before. |
| ProtocolTheorems.PhasesNeverConfused | cmd/server/main.go:160-199 | The shared done channel never holds a finished token while the server waits for prepared ones, nor the reverse. |
| ProtocolTheorems.SendsNeverBlock | cmd/server/main.go:263-271 | No send of a handler or of the server on a round's channels ever blocks. |
| ProtocolTheorems.HandOver | cmd/server/main.go:243-253 | When a handler starts, both directions of its connection are empty and every earlier handler of it has returned. |
| ProtocolTheorems.Queues | cmd/server/main.go:250-266 | Each step takes the first message of a queue, adds one at its end, or leaves it; nothing is added once the connection has dropped, which it remains, and what is queued then stays. |
| ProtocolTheorems.OneResultPerWorker | cmd/server/main.go:194-199 | A completed round is recorded with exactly one result of each worker, the one it sent in that round under the round's name. |
| ProtocolTheorems.InitsCarryTheirRound | cmd/server/main.go:158-183 | Although test names are overwritten in place, an "init" under way always carries the round it was sent for, its tree and its name. |
| ProtocolSteps.StepKeepsInv | cmd/server/main.go:243-274 | Every step of server, handler, worker or network keeps the protocol's invariant: places of handlers, queues, tokens, results. |
| ProtocolSteps.RunKeepsInv | cmd/server/main.go:132-274 | The protocol's invariant holds after every run. |
| ProtocolSteps.HandlerBalances | cmd/server/main.go:254-271 | Tokens and results posted, taken and still to come balance after every move of a handler. |
| ProtocolSteps.LastResultEndsRound | cmd/server/main.go:195-199 | When the server takes the last result, all handlers have returned, the channels are empty and the connections at rest. |
| ProtocolSteps.WorkerStepKeepsLink | pkg/worker/worker.go:63-120 | Each turn of a worker's message loop, and each loss of its connection, keeps the connection in step with its handler. |
| ProtocolProgress.SomebodyCanMove | cmd/server/main.go:132-234 | Without drops and with work in every round, some step is possible until all rounds are complete. |
| ProtocolProgress.StepsAddUp | cmd/server/main.go:148-233 | Steps made and steps left always add up to 17·workers + 1 per round: every step decreases the measure by exactly one. |
| ProtocolProgress.MaximalRunsComplete | cmd/server/main.go:148-233 | A run without drops is stuck exactly when complete, and complete exactly after that number of steps. |
| ProtocolProgress.CompletesIffWorkInEveryRound | pkg/worker/worker.go:100-104 | A benchmark can be completed if and only if no round gives the workers an empty queue. |
| ProtocolProgress.EmptyRoundNeverCompletes | pkg/worker/worker.go:100-104 | A round with an empty queue is never recorded, whatever happens. |
| ProtocolProgress.FailureStopsTheBenchmark | cmd/server/main.go:255-260 | Once a handler has failed to decode, its round is never recorded, nor any later one, however the run goes on. |
| ProtocolRecovery.CompletableIffAllViable | cmd/server/main.go:243-274 | After whatever has happened, dropped connections included, a benchmark with work in every round can still be completed if and only if every connection is up or has delivered its worker's result of the last round. |
| ClientPool.Produce | pkg/worker/worker.go:161-174 | The producer's loops send every pair of directory and index in order, then one stopper per client. |
| ClientPool.JobAt | pkg/worker/worker.go:163-170 | That order is directory by directory and in each file by file: job k·files + i is file i of directory k. |
| ClientPool.JobsExactly | pkg/worker/worker.go:163-170 | The stream has each pair of a directory of the queue and an index below the file count exactly once. |
| ClientPool.StepKeepsPoolInv | pkg/worker/worker.go:30-49 | Every send, receive and execution keeps the pool's invariant: first in, first out, and each job taken is executed or under way once. |
| ClientPool.PoolRunsToTheEnd | pkg/worker/worker.go:124-142 | A run of the pool is stuck exactly when drained; every pair has then been executed exactly once, after the same number of steps in every interleaving. |
| ClientPool.DrainedMeansAllExecuted | pkg/worker/worker.go:141-144 | When the worker goes on the channel is empty and exactly the jobs of the queue have been executed. |
| ClientPool.StoppersComeLast | pkg/worker/worker.go:38-42 | Once a client has stopped, all work has been taken and only stoppers are left. |
| ClientPool.PoolCanMove | pkg/worker/worker.go:127-139 | With at least one client the pool is never stuck before it is drained. |
| ClientPool.NoClientsNoProgress | pkg/worker/worker.go:127-139 | Without clients the pool is stuck at once, and drained only if there is no work. |
| WorkTree.PopulateLevel | pkg/worker/worker.go:180-197 | The recursion lists width^depth leaves, the k-th being chosen by the base-width digits of k. |
| WorkTree.PopulateDirs | pkg/worker/worker.go:176-178 | A worker's queue has exactly the leaves of its tree in that order. |
| WorkTree.LeafStep | pkg/worker/worker.go:184-191 | On each level a leaf is in the directory named by its next digit, the first digit counting most. |
| WorkTree.SubDirForm | pkg/worker/worker.go:185-187 | A directory's name ends in its place on its level, after the worker's ID, on top, or the level. |
| WorkTree.SomeNames | pkg/worker/worker_test.go:49-58 | Some names of directories and files as they are expected, such as "w1.fsb.0_1", "fsb.3_1" and "bat.10". |
| WorkTree.LeavesDiffer | pkg/worker/worker.go:185-190 | Leaves are pairwise different within a tree and between the trees of different workers, w1 and w11 included. |
| WorkTree.FilesDiffer | pkg/worker/workItems.go:26-28 | All file paths of a round are pairwise different. |
| Text.DecimalInjective | pkg/worker/worker.go:185-187 | Different numbers print differently. |
| FileSystem.OSClient.constructor | pkg/worker/fs.go:54-68 | A file of at most a block is one block of its own size, a larger one has blocks of the block size; the block count and size multiply to the file size recorded, which is the length of the files. |
| FileSystem.FileLengthIsLeast | pkg/worker/fs.go:60-66 | That length is the size itself up to a block, and otherwise the least number of whole blocks that holds it. |
| FileSystem.MakingDirectories | pkg/worker/fs.go:87-91 | A directory can be made if and only if no file is on the way; then exactly it and those it is in have been added, otherwise nothing has changed. |
| FileSystem.OSClient.Write | pkg/worker/fs.go:120-136 | Block by block: if the directory can be made and the path is free, leaves a new file of exactly that length, and otherwise fails; no other file is touched. |
| FileSystem.OSClient.Read | pkg/worker/fs.go:138-155 | Succeeds exactly if the directory can be made and the file is there with all its blocks; touches no file, and makes the directory. |
| FileSystem.OSClient.Delete | pkg/worker/fs.go:108-112 | A file that is there is deleted; whenever the call succeeds that path is gone and every other path is as it was, and when it fails nothing has changed. |
| FileSystem.FileLife | pkg/worker/fs.go:108-155 | A file that could be written is found, read in full and deleted, and then found no more; of it only its directory and those that is in are left. |
| FileSystem.WriteThenRead | pkg/worker/fs.go:120-155 | What one client writes, any client built from the same sizes reads back in full. |
| WorkItems.WorkItem.Prepare | pkg/worker/workItems.go:61-91 | When writing, makes the directory with all on the way to it and counts it under MKDIR; otherwise does nothing. |
| WorkItems.WorkItem.Do | pkg/worker/workItems.go:99-199 | Does the operation and counts it as finished or failed; bytes count in either case. |
| WorkItems.CountSums | pkg/worker/workItems.go:114-152 | An operation adds one to the successes or the failures of its test and to nothing else; writing adds the size to the bytes sent, reading to those received, whether it succeeded or not. |
| WorkItems.CountedUnder | pkg/worker/workItems.go:114-152 | It counts under its own method only, with the bytes. |
| WorkItems.MkdirSums | pkg/worker/workItems.go:67-81 | Making a directory adds one success or failure under MKDIR, and no bytes. |
| OperationNames.NamedIff | pkg/common/configFile.go:25-59 | An operation is read from the text it is printed as, and from no other. |
| OperationNames.OnlyOneIsNamed | pkg/common/configFile.go:25-59 | The text of a set of operations names an operation if and only if there is one in the set. |
| OperationNames.MethodIsName | pkg/worker/workItems.go:116-148 | The method under which an operation counts is its text in capitals. |
| OperationNames.WhatTextsDo | pkg/worker/workItems.go:99-199 | "write" creates the file at full length if it is not there, "read" succeeds if all of it is there and changes no file, "stat" looks for it and changes nothing, "delete" removes it; there are no other operations. |
| OperationNames.WhatTextsMean | cmd/server/main.go:174-180 | A round moves the size for each file if its text is "write" or "read", and nothing if it is "stat" or "delete"; it clears directories if and only if it is "delete" and its test asks for that. |
| WorkItems.WorkItem.Clean | pkg/worker/workItems.go:206-225 | When deleting, succeeds on a directory exactly if nothing is below it; then that path is gone and every other is as it was, and on failure, or for other operations, nothing has changed. |
| Counters.SumCounterForTest | pkg/worker/prometheus.go:161-171 | The nested loops compute the sum over the children that name the test. |
| Counters.SumAfterBump | pkg/worker/workItems.go:116-122 | Counting an operation adds to the sum of its own test and of no other, under any label set. |
| Counters.ValueAfterBump | pkg/worker/workItems.go:116-122 | And it adds to the child of its own test and method, and to no other. |
| Reporting.GetCurrentPromValues | pkg/worker/prometheus.go:139-159 | A report has the sums and averages of its own test's counters. |
| Reporting.AverageHistogramForTest | pkg/worker/prometheus.go:173-188 | The nested loops compute the mean over the children that name the test, or -1 without samples. |
| Reporting.AverageIsBetween | pkg/worker/prometheus.go:173-188 | The mean lies between the means of the test's operations it is made of. |
| Reporting.AverageOfSamples | pkg/worker/prometheus.go:173-188 | What is reported is the mean of the samples observed for the test, and -1 if there were none, as for generated bytes in a round that reads. |
| BenchmarkResults.SumBenchmarkResults | cmd/server/main.go:282-301 | The loop computes the summary of the results. |
| BenchmarkResults.SummaryOfBoth | cmd/server/main.go:286-298 | In the summary of two groups of results, operations, bytes and bandwidths are those of the two added up, and both latencies are averaged with the number of workers of each group. |
| BenchmarkResults.SummaryOfOne | cmd/server/main.go:282-301 | The summary of a single result is that result. |
| BenchmarkResults.OrderDoesNotMatter | cmd/server/main.go:282-301 | The summed result, name included, does not depend on the order in which the workers' results arrive. |
| BenchmarkResults.AverageWithinBounds | cmd/server/main.go:295-296 | The averaged latency lies between the smallest and the largest of the workers. |
| ByteSizes.SizeIsCarried | pkg/common/configFile.go:112-121 | The printed form of every size parses, and to the number of tenths printed times the unit, rounded down. |
| ByteSizes.SpelledOutIsRead | pkg/common/bytes.go:90-124 | Any number of tenths with the first letter of a unit, alone or before "B" or "iB", in upper or lower case, is read as that many tenths of a power of 1024, rounded down; for bytes only "B" is. |
| ByteSizes.SomeTexts | pkg/common/bytes_test.go:47-88 | For instance "5MB" is 5·1024², and so on for all units. |
| ByteSizes.OtherUnitsAreRefused | pkg/common/bytes.go:121-123 | Any other unit after a number is an invalid quantity. |
| ByteSizes.BareNumbersAreRefused | pkg/common/bytes.go:96-98 | So is a number without a unit. |
| ByteSizes.NegativesAreRefused | pkg/common/bytes.go:101-104 | So is a negative number. |
| ByteSizes.ReadOnlyIfSpelled | pkg/common/bytes.go:90-124 | Whatever text is read at all is a number that is not negative, and a unit spelled as above. |
| ByteSizes.SpacesDoNotMatter | pkg/common/bytes.go:91-91 | White space around a quantity makes no difference. |
| ByteSizes.OneMoreDecimal | pkg/common/bytes.go:101-101 | Any number of decimals is read, each counting a tenth of the one before it. |
| ByteSizes.SomeSizes | pkg/common/bytes.go:39-71 | 1, 1536 and 1048575 are printed "1B", "1.5K" and "1024K". |
| ByteSizes.TiesGoToEven | pkg/common/bytes.go:68-68 | Of two equally near tenths the even one is printed. |
| ByteSizes.CarriedTwice | pkg/common/configFile.go:90-121 | A size that has been printed and parsed once is never changed by doing so again, carries such as 1048575 → 1024K → 1M included. |
| ByteSizes.CarriedIsMonotone | pkg/common/bytes.go:39-71 | A larger size never arrives smaller. |
| ByteSizes.CarriedError | pkg/common/bytes.go:68-70 | The error is at most a twentieth of the unit upwards, and less than that plus one byte downwards. |
| ByteSizes.CarriedExactly | pkg/common/bytes.go:39-71 | A size arrives unchanged if and only if it is some number of tenths of its unit rounded down to bytes, stated as a test on the remainder; whole and half multiples of the unit are. |
| ByteSizes.UnitFits | pkg/common/bytes.go:43-66 | The unit chosen leaves a number in [1, 1024). |
| ByteSizes.TruncationAbsorbsRounding | pkg/common/bytes.go:101-118 | With a factor that is off by at most half a unit in the last place, the floating-point product truncates to the exact result. |
| Schedule.ScheduleTests | cmd/server/main.go:148-183 | The nested loops run the rounds of all combinations in order, up to a panic at the first unknown operation, and leave each test with the name of its last combination and otherwise unchanged. |
| OperationNames.RoundOfPlace | cmd/server/main.go:148-181 | The round of a test's t-th thread count and o-th operation runs that many clients, does the operation of that text, and has the name, the define and the housekeeping of its test. |
| Schedule.ComponentsOfPath | pkg/worker/worker.go:176-189 | An absolute anchor has exactly the components it is written with. |
| Schedule.SplitAtSlash | pkg/worker/worker.go:176-189 | An anchor is split at its slashes, several together or at its ends counting as one. |
| Schedule.OneComponent | pkg/worker/worker.go:176-189 | What has no slash is one component, and nothing none. |
| Schedule.RoundNameForm | cmd/server/main.go:158-158 | A round is named after its test, operation and thread count, in that order. |
| Schedule.ScheduleTest | cmd/server/main.go:149-158 | The same for one test: every round is named after the test's first name, not the overwritten one. |
| ScheduleTheorems.Order | cmd/server/main.go:148-151 | Test, thread count and operation determine the place of their round. |
| ScheduleTheorems.CombosCount | cmd/server/main.go:148-151 | There are Σ threads·operations rounds. |
| ScheduleTheorems.RoundNameInjective | cmd/server/main.go:158-158 | A round's name determines the test name, operation and thread count, dashes in test names included. |
| ScheduleTheorems.NamesDistinctIff | cmd/server/main.go:153-158 | The rounds have distinct names if and only if no test name, operation and thread count come together twice. |
| ScheduleTheorems.DistinctListsAreEnough | cmd/server/main.go:148-158 | Distinct test names, and no thread count or operation twice in a test, are enough for that. |
| ScheduleTheorems.PlanIsCyclic | cmd/server/main.go:150-151 | If every test's operations come in cycles, so do the rounds of all tests together. |
| Configuration.CheckTestCase | pkg/common/configFile.go:323-360 | Succeeds exactly if no test has a defect; then each setting that a test's define had before has its own value still, and each other one the global value. Else it reports the first defect, and only the tests before it have been filled; tests may share defines. |
| Configuration.FirstDefect | pkg/common/configFile.go:328-345 | Each defect is reported exactly if it is there and none of those looked for before it is: generator, defines, anchor, direct_io, operations, threads. |
| Configuration.FillIn | pkg/common/configFile.go:346-357 | An anchor, direct_io, operations and threads of a test's own stay; those not set become the global ones. |
| Configuration.OwnSettingsStay | pkg/common/configFile.go:346-357 | Setting by setting, what that leaves is the own setting if there was one, and the global one otherwise. |
| Configuration.AllComplete | pkg/common/configFile.go:323-360 | After success every test has an anchor, direct_io, operations and threads. |
| Configuration.SecondRun | pkg/common/configFile.go:323-360 | Checking again finds no defect and changes nothing. |
| Payload.RandAsciiBytes | pkg/worker/fs.go:172-186 | Fills the buffer in place with the letters of the successive states. |
| Payload.Letter | pkg/worker/fs.go:182-182 | Every byte is one of the 64 letters. |
| Payload.LetterFromUpperHalf | pkg/worker/fs.go:182-182 | It is chosen by the upper half of the state modulo 64; the lower half does not matter. |
| Payload.LettersDiffer | pkg/worker/fs.go:15-15 | The 64 letters are all different, so each is chosen by as many states. |
| Payload.XorBits | pkg/worker/fs.go:183-183 | Exclusive or, bit by bit. |
| Payload.MixedInFirst | pkg/worker/fs.go:183-184 | The second half of the seed is mixed in before the multiplication by 2654435761 modulo 2^32. |
| Payload.LetterAt | pkg/worker/fs.go:181-185 | Each byte depends on its place only, so a shorter text is the beginning of a longer one. |
| Payload.StepIsBijective | pkg/worker/fs.go:183-184 | The step of the generator has an inverse. |
| Payload.StatesReturn | pkg/worker/fs.go:181-185 | From every seed the states come back to the first within 2^32 steps. |

## Left out

- TCP, JSON and YAML encoding, the Prometheus registry and exporter, logging and command lines: connections are queues of messages, counters are sequences of labelled values, and of marshalling only the sizes are modelled.
- cmd/compare, reports, CSV, tables and S3 uploads: output only.
- Clocks: durations, bandwidths and latencies are arbitrary inputs of the aggregation.
- Floating point: counters, sums and averages are exact (float64 is exact for the counts below 2^53); printing and parsing of sizes is exact, which ByteSizes.TruncationAbsorbsRounding justifies up to terabytes; "16E" overflows 64 bits in the source and is not treated specially.
- Sizes are natural numbers; the conversion of a size above 2^63 - 1 to a signed integer is not modelled.
- Text is ASCII: letters, case and white space of other alphabets in sizes are not modelled, nor are numbers beyond the range of float64.
- Real file systems: direct I/O alignment, short reads, permissions and full disks; opening a directory for reading counts as a failure at the open instead of at the first read.
- In the composed system the blocks of one file are written or read in one step, while the methods of FileSystem.OSClient do them block by block; clients never share a file.
- Path cleaning: an anchor is a sequence of components, and ".." and "." in it, or relative anchors, are not resolved.
- A nil global configuration, which the caller of the configuration check rejects beforehand.
- The notification channel of a client: nothing ever sends on it or closes it.
- Workers that connect too few or too late, reconnection after failures, and the final loop that sends "shutdown" only to workers that arrive after the benchmark: the model starts when all workers are connected, and a worker that has left stays away.
- A worker whose connection drops may, in the model, first see what is still queued for it and only then notice: the model has more behaviours than the code there.
- A thread count of zero is only treated by ClientPool.NoClientsNoProgress; the theorems about whole runs ask for at least one.
