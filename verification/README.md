# Verified model of the generation, clustering and deduplication core

Neuco turns customer signals into feature candidates and feature specs into pull requests. This project models the
parts of that program that carry real obligations, and proves them for all inputs, all runs and all interleavings:

- **Agent pipeline** (`AgentPipeline`, `AgentPipelineRuns`, `AgentPipelineTrace`, `AgentPipelineStore`). Six tasks, a job queue, a sandbox
  session with a retry counter, and a run status derived from the tasks. `AgentPipeline.Step` is the specification of
  one job; the lemmas of `AgentPipelineRuns` speak about every finite history of delivered jobs, with an arbitrary
  answer of the outside world to each, and `AgentPipelineTrace` says the same job by job, as a transition table in terms of
  those answers alone. The class `RunStore` updates the rows in place, worker by worker; its `Valid`
  ties the rows to a history, so those lemmas hold of the object, and `DrainQueue`, which stands for the job queue's own
  delivery loop, carries the end states and the bounds as its contract.
- **Bounded concurrent runners** (`ParallelSandbox`, `MultiAgent`). Every goroutine is a program counter, every step of
  it a label, and the lemmas hold for every order of labels: bounds on what is live, clean-up, accounting, no deadlock.
- **Numeric and packing algorithms** (`Vectors`, `KMeans`, `RichContext`, `CodegenContext`, `ProviderAnalytics`,
  `AdaptiveSelection`). Loops over arrays and maps proved against recursive specifications, and the bounds, fixed
  points, order independence and conservation laws of those. Floats are exact reals.
- **Small machines against a simpler rule** (`CircuitBreaker`, `ShellWords`, `JsonScan`, `SignalDedup`,
  `SignalCoverage`).
- `Options`, `Strings`, `Counting` and `Sorting` are the shared vocabulary. `Sorting.SortSlice` stands for Go's
  `sort.Slice`: callers know only that the result is an ordered permutation.

`hide` statements keep definitions that a proof does not need out of the solver's way.

## Where the code does not do what one would expect

These are theorems of the model, each with its exact condition.

- *Sandbox sessions cannot be created under the migrated schema.* `migrations/000017_agent_codegen.up.sql:29` admits
  eight statuses and "provisioned", the one written at `internal/jobs/agent_codegen.go:267`, is not among them. The
  admitted statuses are a parameter of the model: some history completes the run if and only if they include
  "provisioned" (`CompletesIff`), and under the migrated ones no agent ever runs (`NoAgentUnderMigratedSchema`). The
  safety, termination and end-state theorems hold for any choice of statuses; those about what can be reached
  (`ReachAgent`, `AgentStartsBoundAttained`, `PassAdvances`, `CanComplete`) need "provisioned" among them.
- *The retry bound rests on a write whose failure is only logged* (`internal/jobs/agent_codegen.go:547-549`). `run_agent`
  starts at most `maxRetries + 1` times plus once for every refused write of the counter, and this bound is attained for
  every number of refused writes (`AgentStartsBounded`, `AgentStartsBoundAttained`).
- *A job that cannot be queued strands the run.* Its status stays pending for good; a run ends completed or failed if
  and only if no insert was lost (`EndStates`). A run is never marked running on the way.
- *The sandbox runner destroys with the run's own context.* After a timeout the deferred `Destroy` can fail, and then the
  sandbox outlives the run; what exists at the end is counted exactly by the failed calls (`AllDestroyedOnce`).
- *`consensus` is `best_of`*, despite the comment at its declaration, and a zero or negative duration earns the ten
  points of a medium one (`SelectBest`, `ScoreResult`).
- *The half-open breaker lets every request through*, not one probe; and the machine agrees with its rule only under a
  clock that does not go back (`ClockMustNotGoBack`), which Go's monotonic reading gives it.
- *Shell quoting misses three cases.* An unquoted word that begins with `#` opens a comment, one that begins with `~` is
  expanded (neither character is in the set at `internal/codegen/sandbox_e2b.go:693`), and unquoted exotic white space
  (no-break space, vertical tab...) at either end of the line is trimmed off. `CommandRoundTrip` shows that, as far as
  token recognition, quoting and tilde expansion go, these are all the cases: the round trip holds if and only if
  `SafeToPrint` does. Assignments, reserved words and aliases in first position are outside the claim.
- *The bracket scanner does not know strings*: `["]"]` is cut after the first `]` (`StringLiteralsAreNotSkipped`).
- *An original can be undeletable.* Content that was linked to a near original may be ingested again; after that two
  duplicates of one original share their content, and the unique index refuses what the foreign key would do on deletion
  (`OriginalCanBeUndeletable`, a history from the empty table; exact condition in `DeleteRefusedIff`).
- *The embed worker does not check that its signals are its project's.* Every caller in the repository passes ids of the
  job's own project or none (`internal/jobs/synthesis.go:69-73`, `internal/jobs/ingest.go:129-133` and `214-219`,
  `internal/api/handlers/signals.go:110-115` and `265-270`, the five sync jobs), so this is an assumption rather than a
  defect. `ProjectsCoveredIff` says exactly what rests on it: a project with signals keeps an original all along if and
  only if every change is harmless when it is made, and `ForeignSignalCanOrphanProject` is a history in which one is not.

## Model

| member | source | states |
|---|---|---|
| AgentPipeline.NormalizeMaxRetries | internal/jobs/agent_codegen.go:713-718 | At least one retry, and never fewer than configured |
| AgentPipeline.TaskIDByName | internal/jobs/agent_codegen.go:685-696 | The first task of that name, or nothing when no task has it |
| AgentPipelineStore.RunStore.constructor | internal/jobs/agent_codegen.go:24-61 | A new run has the six tasks in order, all pending, and one prepare_context job; its history is empty |
| AgentPipelineStore.RunStore.UpdateTaskStatus | internal/store/pipelines.go:57-73 | Only the named task changes; starting it counts an attempt |
| AgentPipelineStore.RunStore.UpdateSessionStatus | internal/store/sandbox_session.go:141-160 | The status changes if the schema admits it; the counters never do |
| AgentPipelineStore.RunStore.UpdateSessionResult | internal/store/sandbox_session.go:164-198 | retry_count changes only when a value is supplied |
| AgentPipelineStore.RunStore.CheckPipelineCompletion | internal/jobs/pipeline_helpers.go:52-88 | The scan with its early exit gives failed if some task failed, completed if all completed, otherwise no change |
| AgentPipelineStore.RunStore.FailTask | internal/jobs/pipeline_helpers.go:37-88 | Failing a task fails the run in the same step |
| AgentPipelineStore.RunStore.PipelineTaskIDByName | internal/jobs/agent_codegen.go:685-696 | The scan finds the first task of that name |
| AgentPipelineStore.RunStore.Insert | internal/jobs/agent_codegen.go:449-466 | The next job carries the id of its task; a failed insert leaves the queue alone |
| AgentPipelineStore.RunStore.PrepareContextWork | internal/jobs/agent_codegen.go:75-149 | The worker's writes, in order, amount to its step on all rows and the queue |
| AgentPipelineStore.RunStore.ProvisionSandboxWork | internal/jobs/agent_codegen.go:169-298 | Likewise; the session row starts with no retries used, if the schema admits its status |
| AgentPipelineStore.RunStore.RunAgentWork | internal/jobs/agent_codegen.go:319-468 | Likewise; the validation job gets the retry count loaded before the agent ran |
| AgentPipelineStore.RunStore.Validate | internal/jobs/agent_codegen.go:507-530 | Validation fails exactly when a sandbox is there and some command, whichever, ran and exited with a non-zero code |
| AgentPipelineStore.RunStore.ValidateOutputWork | internal/jobs/agent_codegen.go:487-640 | Pass queues create_pr, failure with retries left queues run_agent and counts, otherwise the task and the run fail |
| AgentPipelineStore.RunStore.CreatePRWork | internal/jobs/codegen.go:607-764 | The worker's writes amount to its step |
| AgentPipelineStore.RunStore.NotifyWork | internal/jobs/codegen.go:843-884 | Likewise; the last task completes and the run status is derived |
| AgentPipelineStore.RunStore.Dispatch | internal/jobs/agent_codegen.go:75-640 | Whatever job is taken off the queue, its worker changes the rows exactly as the specification step says |
| AgentPipelineStore.RunStore.Deliver | internal/jobs/agent_codegen.go:75-640 | Delivering a job extends the history that the rows reflect, keeps the invariant and spends fuel |
| AgentPipelineStore.RunStore.DrainQueue | internal/jobs/agent_codegen.go:487-640 | Delivering whatever is queued ends, within the fuel, in an end state: completed iff all tasks are, failed iff exactly one is, pending iff a job was lost; agent starts are bounded by maxRetries + 1 and the refused writes; the jobs were delivered in the order the answers dictate, and in a completed run nothing went wrong and the last validation had no failed command |
| AgentPipelineRuns.StepKeepsInv | internal/jobs/agent_codegen.go:75-640 | Every job from every reachable state keeps the invariant and spends fuel, save for refused retry writes |
| AgentPipelineRuns.AlwaysInv | internal/jobs/agent_codegen.go:75-640 | The invariant and the length bound hold after every history |
| AgentPipelineRuns.OneLiveJob | internal/jobs/agent_codegen.go:75-640 | Exactly one job is live until the run is over, none afterwards |
| AgentPipelineRuns.AgentStartsBounded | internal/jobs/agent_codegen.go:543-585 | run_agent starts at most maxRetries + 1 times, plus once per refused counter write; the stored counter never passes the limit |
| AgentPipelineRuns.AgentStartsBoundAttained | internal/jobs/agent_codegen.go:544-571 | For every number of refused writes some history reaches that bound |
| AgentPipelineRuns.ReachAgent | internal/jobs/agent_codegen.go:544-571 | Every combination of used retries and refused writes is reachable |
| AgentPipelineRuns.CreatePROnlyAfterPass | internal/jobs/agent_codegen.go:620-637 | A create_pr or notify job is queued only after the validation of the latest agent execution passed |
| AgentPipelineRuns.HistoryBounded | internal/jobs/agent_codegen.go:487-640 | No history is longer than 2 * maxRetries + 6 jobs plus two per refused write, so the loop ends |
| AgentPipelineRuns.GoesOn | internal/jobs/agent_codegen.go:449-466 | While a job is queued, any answer of the world continues the history |
| AgentPipelineRuns.EndStates | internal/jobs/pipeline_helpers.go:52-88 | With an empty queue: completed iff all six tasks are, failed iff exactly one task is, and one of the two iff no insert was lost |
| AgentPipelineRuns.NoAgentUnderMigratedSchema | migrations/000017_agent_codegen.up.sql:29 | Under the migrated status check no agent runs, no session exists and no run completes |
| AgentPipelineRuns.PassAdvances | internal/jobs/agent_codegen.go:620-637 | With good answers each stage hands over to the next and the last completes the run |
| AgentPipelineTrace.ValidationMeaning | internal/jobs/agent_codegen.go:507-530 | One failed command is enough to fail validation, and nothing else is |
| AgentPipelineTrace.StepFollows | internal/jobs/agent_codegen.go:75-640 | The transition table of every job: which answers fail the run, which job comes next, and what becomes of every task, the session status and the retry count |
| AgentPipelineTrace.JobsInOrder | internal/jobs/agent_codegen.go:75-640 | In every history each job but the last did its work and the one its answers call for came next |
| AgentPipelineTrace.EndsByLastJob | internal/jobs/pipeline_helpers.go:52-88 | A run is completed iff its last job was notify and did not go wrong, and failed iff its last job went wrong |
| AgentPipelineTrace.CompletedWasWellDone | internal/jobs/agent_codegen.go:487-640 | In a completed run no job failed, every agent could be run, and the last validation, with no failed command, was followed by create_pr and notify |
| AgentPipelineTrace.AttemptsAreDeliveries | internal/store/pipelines.go:57-73 | The attempt column of a task counts the deliveries of its job |
| AgentPipelineRuns.CanComplete | internal/jobs/agent_codegen.go:75-640 | From every live state some continuation completes the run, if the schema admits new sessions |
| AgentPipelineRuns.CompletesIff | internal/jobs/agent_codegen.go:258-276 | Some history completes the run iff the schema admits the status of new sessions |
| AgentPipelineRuns.StepCounts | internal/jobs/agent_codegen.go:543-571 | Refused writes and lost jobs are counted only when the world refuses, one at a time |
| ParallelSandbox.NormalizeMaxSandboxes | internal/codegen/parallel_sandbox.go:33-44 | At least one sandbox may run: the configured number if positive, otherwise three |
| ParallelSandbox.StepKeepsSandboxes | internal/codegen/parallel_sandbox.go:74-100 | Every step keeps sandboxes and Destroy calls paired: never two, none for a failed provisioning |
| ParallelSandbox.StepKeepsResults | internal/codegen/parallel_sandbox.go:76-110 | Every step keeps the results in one-to-one correspondence with settled workers |
| ParallelSandbox.StepKeepsExisting | internal/codegen/parallel_sandbox.go:74-89 | What exists is what is in use plus what could not be destroyed, after every step |
| ParallelSandbox.AlwaysInv | internal/codegen/parallel_sandbox.go:48-116 | All of this holds in every interleaving, with a bound on its length |
| ParallelSandbox.LiveSandboxesBounded | internal/codegen/parallel_sandbox.go:52-89 | Sandboxes in use never outnumber the slots held, which never outnumber the limit |
| ParallelSandbox.AllDestroyedOnce | internal/codegen/parallel_sandbox.go:85-116 | On return each provisioned sandbox had Destroy called exactly once and all slots are free |
| ParallelSandbox.ResultsAccounted | internal/codegen/parallel_sandbox.go:67-116 | On return results, cancelled workers and nil results add up to the configs, with at most one result per worker |
| ParallelSandbox.ResultsAreAnswers | internal/codegen/parallel_sandbox.go:74-110 | Every result is what the function returned to that worker or its failed provisioning, and on return every such answer is among the results |
| ParallelSandbox.DestroyedAsProvisioned | internal/codegen/parallel_sandbox.go:74-100 | On return a worker has called Destroy once if its sandbox was provisioned, and never otherwise |
| ParallelSandbox.Terminates | internal/codegen/parallel_sandbox.go:62-115 | At most six steps per config and the cancellation |
| ParallelSandbox.NeverStuck | internal/codegen/parallel_sandbox.go:67-72 | Until Run can return some worker can take a step of its own |
| ParallelSandbox.BestResult | internal/codegen/parallel_sandbox.go:119-135 | The first error-free success with the most file changes, or none when there is no such success |
| MultiAgent.NormalizeConfig | internal/codegen/multi_agent.go:52-69 | Parallelism is positive: as configured, else everybody at once, else three; the strategy is kept, and race when empty |
| MultiAgent.ScoreResult | internal/codegen/multi_agent.go:165-187 | The accumulated score is the sum of the criteria, between 0 and 100, and at least 50 exactly for successes |
| MultiAgent.ScoreMeaning | internal/codegen/multi_agent.go:165-187 | Every success outscores every failure; 100 means all criteria are met |
| MultiAgent.StepKeepsRuns | internal/codegen/multi_agent.go:93-119 | Every step keeps the runs in one-to-one correspondence with the slots that returned |
| MultiAgent.StepKeepsWon | internal/codegen/multi_agent.go:113-119 | The race is cancelled only by a success that is among the runs |
| MultiAgent.AlwaysInv | internal/codegen/multi_agent.go:73-125 | The invariant and the length bound hold in every interleaving |
| MultiAgent.ParallelismBounded | internal/codegen/multi_agent.go:77-98 | At most MaxParallel agents run at once, in every interleaving |
| MultiAgent.RunsAccounted | internal/codegen/multi_agent.go:81-125 | On return each slot has at most one run under its own name; runs, cancelled and unregistered slots add up |
| MultiAgent.RunsAreAnswers | internal/codegen/multi_agent.go:100-119 | Every run is the answer of its slot's agent with the score of that answer, criterion by criterion; on return every answer is collected, and a race is won iff some run succeeded |
| MultiAgent.NothingLostWithoutCancellation | internal/codegen/multi_agent.go:93-125 | Without a timeout every registered slot has its run, unless a race was won -- and then some run succeeded |
| MultiAgent.NeverStuck | internal/codegen/multi_agent.go:93-98 | Until RunAll can return some worker can take a step of its own |
| MultiAgent.SelectBest | internal/codegen/multi_agent.go:128-162 | None iff nothing succeeded; otherwise the earliest success (race), a success of maximal score (best_of, consensus), or the first success |
| Vectors.ComputeCosineDistance | internal/jobs/synthesis.go:320-335 | The three accumulators give one minus the cosine, and 1 for empty, zero or mismatched vectors |
| Vectors.DotAppend | internal/jobs/synthesis.go:324-329 | The dot product of single components is their product, and concatenations add up |
| Vectors.CauchySchwarz | internal/jobs/synthesis.go:324-333 | The squared dot product is at most the product of the squared norms, for all vectors |
| Vectors.CosineLaw | internal/jobs/synthesis.go:330-334 | One minus the distance has the sign of the dot product, and its square times both squared norms is the dot product squared |
| Vectors.CosineDistanceBounds | internal/jobs/synthesis.go:320-335 | Every distance is in [0, 2] |
| Vectors.CosineDistanceSymmetric | internal/jobs/synthesis.go:320-335 | The distance is symmetric |
| Vectors.ZeroDistanceIffSameDirection | internal/jobs/synthesis.go:320-335 | Distance zero iff one non-zero vector is a positive multiple of the other |
| KMeans.Nearest | internal/jobs/synthesis.go:253-261 | The centroid of least index among those at least distance |
| KMeans.AssignAll | internal/jobs/synthesis.go:248-266 | Every signal of the right dimension moves to its nearest centroid, the others stay; the flag says whether anything moved |
| KMeans.Accumulate | internal/jobs/synthesis.go:272-288 | One pass gives the member count and component sums of every cluster |
| KMeans.Recompute | internal/jobs/synthesis.go:272-297 | Afterwards the centroid of each cluster with members is their mean: the deviations cancel in every component and it lies between two members; all other centroids are kept |
| KMeans.MeanIsCentred | internal/jobs/synthesis.go:279-296 | A sum divided by a count cancels the deviations of the members it came from and lies between two of them |
| KMeans.InitCentroids | internal/jobs/synthesis.go:235-240 | The first k signals' embeddings become centroids, cut or padded with zeros to the common dimension |
| KMeans.Pass | internal/jobs/synthesis.go:245-298 | One iteration is one pass of the specification, or changes nothing because the stage is stable |
| KMeans.BuildClusters | internal/jobs/synthesis.go:300-316 | The clusters are the ordered buckets of the last stage with their relevance |
| KMeans.KMeansClustering | internal/jobs/synthesis.go:225-317 | The clusters come from a run of changing passes from the first centroids that ends after fifty of them or at a stage where a pass would change nothing; unusable input gives no clusters |
| KMeans.RunSound | internal/jobs/synthesis.go:235-298 | Every stage of a run keeps indices in range, signals of another dimension in cluster 0 and centroids initialised, and after a pass exact means |
| KMeans.EarlyStopIsFixedPoint | internal/jobs/synthesis.go:268-298 | A run that stops before the cap ends with every signal at a centroid no farther than any other, the lowest on ties; after any pass, also at the cap, centroids are centred among their members |
| KMeans.PassUnique | internal/jobs/synthesis.go:248-297 | A stage has at most one successor |
| KMeans.ClusteringUnique | internal/jobs/synthesis.go:225-317 | There is one run and one clustering for each input |
| KMeans.BucketPositions | internal/jobs/synthesis.go:306-314 | Each signal stands in its cluster behind exactly the earlier signals of that cluster, and nothing else is there |
| KMeans.SizesAddUp | internal/jobs/synthesis.go:306-314 | The cluster sizes add up to the number of signals |
| KMeans.ClustersPartition | internal/jobs/synthesis.go:300-316 | The clusters are a stable partition of the signals, each with one minus its distance as relevance, which is in [-1, 1] |
| KMeans.ChooseK | internal/jobs/synthesis.go:140-147 | k is the least integer whose square reaches n/2, cut to 2..20, and for n >= 3 never more than n |
| KMeans.CeilOfRoot | internal/jobs/synthesis.go:141 | Rounding up the real root gives the least integer whose square reaches n/2 |
| KMeans.ClusterThemes | internal/jobs/synthesis.go:133-150 | Fewer than three signals are not clustered; otherwise the chosen number of clusters comes from such a run and every centroid is initialised |
| RichContext.NormalizeConfig | internal/codegen/context_builder.go:195-206 | Each field is usable: kept when it already was, otherwise its default |
| RichContext.BeforeIsWeakOrder | internal/codegen/context_builder.go:132-143 | The comparison is a strict weak order, as sort.Slice demands |
| RichContext.BeforeIsTotal | internal/codegen/context_builder.go:132-143 | On candidates with distinct paths it leaves no ties |
| RichContext.CollectCandidates | internal/codegen/context_builder.go:76-126 | One candidate for each file that is not vendored, whatever the map's order |
| RichContext.BuildRichContext | internal/codegen/context_builder.go:54-193 | The bundle is the packing of the sorted candidates |
| RichContext.OrderDoesNotMatter | internal/codegen/context_builder.go:76-193 | Every enumeration order of the file map gives the same bundle |
| RichContext.BundleRanked | internal/codegen/context_builder.go:132-143 | Every bundle lists must-include files first, then higher scores, then fewer tokens, then smaller paths |
| RichContext.RelevantFirst | internal/codegen/context_builder.go:145-189 | A relevant file left out does not fit behind the must-include files and those of at least its score |
| RichContext.EntryFacts | internal/codegen/context_builder.go:82-125 | An entry is a file that is not vendored, cut to the maximal size, scored as a whole, estimated at a quarter of what is kept |
| RichContext.ManifestFacts | internal/codegen/context_builder.go:164-175 | The manifest lists the files in order with their line counts and estimates |
| RichContext.LinesSnoc | internal/codegen/context_builder.go:450-455 | No lines in the empty text, otherwise one more than line ends |
| RichContext.EstimateTokens | internal/codegen/context_builder.go:262-264 | A quarter of the length, rounded up |
| RichContext.ForcedFacts | internal/codegen/context_builder.go:180-184 | After the first loop exactly the must-include candidates are in; truncated iff they exceed the budget |
| RichContext.FilledFacts | internal/codegen/context_builder.go:185-189 | After the second loop nothing relevant that was left out fits, and the flag records exactly that |
| RichContext.PackingExactAndMaximal | internal/codegen/context_builder.go:145-192 | The total is the sum and within max(budget, must-include tokens); must-include files are in; nothing relevant left out fits; truncated iff justified |
| CodegenContext.InsertInPlace | internal/generation/context_builder.go:160-166 | The inner loop inserts the key behind everything not larger and touches nothing beyond |
| CodegenContext.SortByFileSize | internal/generation/context_builder.go:158-168 | The array ends as the stable sort of what it was |
| CodegenContext.SortFacts | internal/generation/context_builder.go:158-168 | The sort is ascending, a permutation, and keeps equal sizes in order |
| CodegenContext.SplitByRelevance | internal/generation/context_builder.go:80-118 | The two appended lists are the two filters of the input |
| CodegenContext.SplitPlace | internal/generation/context_builder.go:80-118 | An item goes behind the earlier items of its kind, and behind all relevant ones if it is not |
| CodegenContext.ComponentOrder | internal/generation/context_builder.go:104-118 | Components named in the spec come first, both parts ascend, nothing is lost or duplicated |
| CodegenContext.ContextWriter.WriteBlock | internal/generation/context_builder.go:40-49 | A section is written and charged iff it fits what is left |
| CodegenContext.ContextWriter.WriteUpTo | internal/generation/context_builder.go:90-138 | A counting loop writes what the greedy fill of its blocks selects |
| CodegenContext.ContextWriter.WriteFirstTwo | internal/generation/context_builder.go:69-74 | A loop over the first two items writes the greedy fill of those |
| CodegenContext.RenderPreamble | internal/generation/context_builder.go:52-63 | The preamble lists the known properties, or is empty without framework and styling |
| CodegenContext.PreambleExamples | internal/generation/context_builder.go:51-63 | Two preambles spelled out |
| CodegenContext.BlockExamples | internal/generation/context_builder.go:40-99 | A token, a type and a story section spelled out |
| CodegenContext.ComponentExample | internal/generation/context_builder.go:125-135 | A component section and a description spelled out |
| CodegenContext.DigitsDenote | internal/generation/context_builder.go:133 | Printed numbers denote the number, without leading zeros |
| CodegenContext.WriteSections | internal/generation/context_builder.go:68-146 | The four loops in order, each on the budget the one before left |
| CodegenContext.BuildCodegenContext | internal/generation/context_builder.go:32-153 | Preamble and selected sections; the final blank test never discards anything |
| CodegenContext.OfferedComponents | internal/generation/context_builder.go:101-118 | Components whose name the spec mentions are offered first, each part by ascending size, none lost |
| CodegenContext.OfferedStories | internal/generation/context_builder.go:79-89 | Stories whose component the spec mentions are offered first, in the order they had |
| CodegenContext.OfferedFirstTwo | internal/generation/context_builder.go:69-74 | The first two design tokens and type files are offered |
| CodegenContext.FillFilled | internal/generation/context_builder.go:40-49 | One loop stays within cap and budget, and a block passed over before the cap does not fit what is left |
| CodegenContext.FillIsFirstFit | internal/generation/context_builder.go:40-49 | A loop picks a block iff fewer than the cap are picked before it and it fits what they left, and keeps the order |
| CodegenContext.ContextLayout | internal/generation/context_builder.go:37-146 | The text is the preamble, then tokens, stories, components and types, each kind first come, first served on what is left of 4000 |
| CodegenContext.TokenEstimate | internal/generation/context_builder.go:12-14 | A quarter of the length, rounded up |
| CodegenContext.EstimateSubadditive | internal/generation/context_builder.go:12-14 | The estimate of the whole text is at most what was charged piece by piece |
| CodegenContext.TextOpensWithHash | internal/generation/context_builder.go:148-152 | The text is never blank without being empty |
| CodegenContext.ContextWithinBudget | internal/generation/context_builder.go:32-153 | The estimate of the returned text is at most 4000 or that of the preamble, so it has at most 16000 characters or three more than the preamble; at most 2 token, 3 story, 5 component and 2 type sections |
| CodegenContext.ContextMaximal | internal/generation/context_builder.go:68-146 | A section left out before its kind's limit does not fit the budget that remains at the end |
| CircuitBreaker.CallKeepsReflects | internal/ai/circuitbreaker.go:41-77 | Every call keeps the fields in agreement with the log of outcomes |
| CircuitBreaker.AgreeFrom | internal/ai/circuitbreaker.go:41-77 | From any such agreement all later answers agree |
| CircuitBreaker.RuleMeaning | internal/ai/circuitbreaker.go:41-77 | The rule refuses iff some suffix of the log has no success and enough failures, the latest of them within the cooldown |
| CircuitBreaker.BreakerFollowsRule | internal/ai/circuitbreaker.go:32-77 | Every call sequence under a monotone clock gets the answers of the stateless rule, for every threshold |
| CircuitBreaker.ClockMustNotGoBack | internal/ai/circuitbreaker.go:41-58 | A clock that goes back tells machine and rule apart |
| CircuitBreaker.CircuitBreaker.IsAllowed | internal/ai/circuitbreaker.go:41-58 | Refuses iff the log has such a suffix |
| CircuitBreaker.CircuitBreaker.Succeed | internal/ai/circuitbreaker.go:61-66 | A success closes the breaker and clears the count, in agreement with the log |
| CircuitBreaker.CircuitBreaker.Fail | internal/ai/circuitbreaker.go:69-77 | A failure is counted and dated, and opens the breaker at the threshold |
| ShellWords.BuildCommandString | internal/codegen/sandbox_e2b.go:680-697 | The line is the trimmed join of the escaped words |
| ShellWords.LexQuoteBody | internal/codegen/sandbox_e2b.go:689-697 | The shell reads any quoted word back as the word, quotes inside included |
| ShellWords.PrintedVerbatim | internal/codegen/sandbox_e2b.go:689-697 | Words of letters, digits and harmless punctuation are printed as they are |
| ShellWords.LexLine | internal/codegen/sandbox_e2b.go:680-697 | Without misread words the untrimmed line reads back as exactly its words |
| ShellWords.LexLineMisread | internal/codegen/sandbox_e2b.go:680-697 | With a word that begins with an unquoted # or ~ it never does |
| ShellWords.TrimLeftLine | internal/codegen/sandbox_e2b.go:680-687 | Trimming the front of the line is trimming its first words |
| ShellWords.TrimRightLine | internal/codegen/sandbox_e2b.go:680-687 | Trimming the back of the line is trimming its last words |
| ShellWords.TrimmedWords | internal/codegen/sandbox_e2b.go:680-687 | Trimming loses nothing iff neither end is unquoted white space |
| ShellWords.CommandRoundTrip | internal/codegen/sandbox_e2b.go:680-697 | The shell reads the printed command as exactly its words iff they are safe to print |
| ShellWords.OrdinaryCommandRoundTrip | internal/codegen/sandbox_e2b.go:680-697 | Words of printable ASCII, blanks, tabs and line ends come back iff none that is printed unquoted begins with # or ~ |
| ShellWords.UnsafeArgument | internal/codegen/sandbox_e2b.go:689-697 | Every such argument is read back as something else |
| ShellWords.UnsafeWords | internal/codegen/sandbox_e2b.go:689-697 | Three concrete commands do not come back |
| JsonScan.FindStart | internal/jobs/codegen.go:552-559 | The first opening delimiter, or -1 when there is none |
| JsonScan.FindEnd | internal/jobs/codegen.go:561-577 | The first position after an opening delimiter that brings the depth to zero, or -1 |
| JsonScan.DepthCounts | internal/jobs/codegen.go:561-577 | The depth is the opening less the closing delimiters |
| JsonScan.Extract | internal/jobs/codegen.go:533-540 | The text cut by the two scans |
| JsonScan.ExtractsBlockIffBalanced | internal/jobs/codegen.go:533-577 | Between any prefix without an opening delimiter and any suffix, a block is extracted if balanced, and only then when something follows |
| JsonScan.ExtractsCases | internal/jobs/specgen.go:202-259 | Every extraction yields a balanced block from the first opening delimiter, the whole rest when there is none, or the text when nothing opens |
| JsonScan.StringLiteralsAreNotSkipped | internal/jobs/codegen.go:561-577 | A bracket inside a JSON string ends the block early |
| SignalDedup.InsertKeepsInv | internal/store/signals.go:44-75 | Inserting after a failed lookup keeps originals unique and every chain grounded |
| SignalDedup.EmbeddingKeepsInv | internal/jobs/ingest.go:299-302 | Storing an embedding keeps both |
| SignalDedup.MarkKeepsInv | internal/store/signals.go:346-353 | Linking a signal to another original keeps both, although chains grow |
| SignalDedup.DeleteKeepsInv | internal/store/signals.go:197-207 | Deleting, with the foreign key's unlinking, keeps both whenever the index permits it |
| SignalDedup.RoundMeaning | internal/jobs/ingest.go:299-317 | A round stores the embedding and links to the closest other original of the project with similarity of at least 0.95, iff there is one |
| SignalDedup.RoundsKeepInv | internal/jobs/ingest.go:272-318 | A whole embed job keeps both and touches only the signals it was given |
| SignalDedup.ReachableInv | internal/store/signals.go:44-353 | In every reachable table no two originals of a project share content and every chain ends at an original |
| SignalDedup.ReachableOriginals | internal/jobs/ingest.go:305-317 | If embed jobs stay within their project, a project with signals always has an original |
| SignalDedup.NoCycles | internal/store/signals.go:346-353 | No signal is, over any number of links, a duplicate of itself |
| SignalDedup.ProjectKeepsOriginal | internal/store/signals.go:346-353 | The chain of any signal leads to an original of the same project |
| SignalCoverage.MarkCoverage | internal/store/signals.go:346-353 | Marking takes no project its last original iff the two are of one project or the project has another original |
| SignalCoverage.RoundCoverage | internal/jobs/ingest.go:299-317 | The same for a whole round: harmless iff nothing is marked, the signal is the job's own, or its project has another original |
| SignalCoverage.DeleteCoverage | internal/store/signals.go:197-207 | Likewise for deletion: iff the project has another original, gets one by unlinking, or has no other signal |
| SignalCoverage.ProjectsCoveredIff | internal/store/signals.go:44-353 | All along a history every project with signals has an original iff every change is harmless when made |
| SignalCoverage.ForeignSignalCanOrphanProject | internal/jobs/ingest.go:305-317 | A history from the empty table in which a job is given a foreign signal and a project loses its last original |
| SignalCoverage.OriginalCanBeUndeletable | migrations/000012_signal_dedup.up.sql:5-13 | A history from the empty table after which an original cannot be deleted |
| SignalDedup.DeleteRefusedIff | migrations/000012_signal_dedup.up.sql:5-13 | Deletion is refused iff two rows that would be originals share project and content |
| SignalDedup.SignalTable.FindByContentHash | internal/store/signals.go:310-319 | An original of the project with that content iff there is one |
| SignalDedup.SignalTable.InsertSignal | internal/store/signals.go:44-75 | Reports an original of the project with the same content, or stores a new one when there is none, and nothing else changes |
| SignalDedup.SignalTable.FindNearDuplicate | internal/store/signals.go:324-343 | A nearest original of the project within the threshold, or none when none is |
| SignalDedup.SignalTable.EmbedOne | internal/jobs/ingest.go:272-318 | One round stores the embedding and links to the closest original at similarity 0.95 or more, or does nothing |
| SignalDedup.SignalTable.EmbedAll | internal/jobs/ingest.go:272-318 | The job is its rounds, each on the table the one before left |
| SignalDedup.SignalTable.DeleteSignal | internal/store/signals.go:197-207 | Succeeds iff the row is the project's and the index permits; then links to it are cleared |
| ProviderAnalytics.AnalyticsCollector.Record | internal/codegen/analytics.go:55-60 | The record is appended |
| ProviderAnalytics.AnalyticsCollector.MetricsByProvider | internal/codegen/analytics.go:63-106 | The one-pass aggregation gives each provider the fold of its own records |
| ProviderAnalytics.AnalyticsCollector.TopProviders | internal/codegen/analytics.go:120-145 | A prefix of the ranking of all providers, best first |
| ProviderAnalytics.MetricsMeaning | internal/codegen/analytics.go:63-106 | Counts, sums, latest time, rate and averages of a provider in terms of its own records; reported are exactly the providers with records |
| ProviderAnalytics.TallyPermutes | internal/codegen/analytics.go:63-106 | A provider's fold does not depend on the order of records |
| ProviderAnalytics.MetricsPermute | internal/codegen/analytics.go:63-106 | Neither do the metrics as a whole |
| ProviderAnalytics.TallyAddsUp | internal/codegen/analytics.go:63-106 | Successes and failures make the total; listed iff there is a run |
| ProviderAnalytics.TotalsAddUp | internal/codegen/analytics.go:63-106 | The totals of all providers sum to the organisation's records |
| ProviderAnalytics.RanksAboveIsWeakOrder | internal/codegen/analytics.go:120-145 | The comparison is a strict weak order |
| ProviderAnalytics.RankingByMerit | internal/codegen/analytics.go:120-145 | Higher success rates come first, then more successes, more runs, smaller names |
| ProviderAnalytics.RankingUnique | internal/codegen/analytics.go:120-145 | There is one ranking, whatever order the metrics map is enumerated in |
| ProviderAnalytics.RankingAddsUp | internal/codegen/analytics.go:120-145 | The runs of all ranked providers together are the organisation's records |
| AdaptiveSelection.Clamp | internal/codegen/adaptive.go:150-158 | A value in [0, 1] that differs from the given one only at the end beyond which that lies |
| AdaptiveSelection.WeightedScoreBounds | internal/codegen/adaptive.go:131-141 | Every score is in [0, 1] |
| AdaptiveSelection.WeightedScoreShares | internal/codegen/adaptive.go:131-141 | Within the scales a score is three fifths success rate, one fifth speed against half an hour, one fifth thrift against a dollar |
| AdaptiveSelection.WeightedScoreMonotone | internal/codegen/adaptive.go:131-141 | Succeeding more often, being faster or cheaper never lowers the score |
| AdaptiveSelection.ConfidenceMeaning | internal/codegen/adaptive.go:143-148 | Ten runs are full confidence, fewer are tenths |
| AdaptiveSelection.PreferredIsWeakOrder | internal/codegen/adaptive.go:69-107 | The comparison is a strict weak order |
| AdaptiveSelection.AdaptiveSelector.List | internal/codegen/provider.go:143-150 | Each registered name once, in sorted order |
| AdaptiveSelection.AdaptiveSelector.ScoreProviders | internal/codegen/adaptive.go:69-107 | Exactly one score per registered provider, best first |
| AdaptiveSelection.AdaptiveSelector.DefaultAgentProvider | internal/codegen/adaptive.go:109-129 | The configured provider, or the first registered name, if registered |
| AdaptiveSelection.AdaptiveSelector.SelectProvider | internal/codegen/adaptive.go:43-66 | The default while some registered provider has fewer than three runs; otherwise a registered provider no other one beats |
| AdaptiveSelection.ScoreByRecords | internal/codegen/adaptive.go:69-107 | Sample size and confidence are decided by the number of records; without any the score is zero |
| AdaptiveSelection.SelectedByRecords | internal/codegen/adaptive.go:43-66 | The default iff some registered provider has fewer than three records, otherwise a registered provider of maximal score |

## Left out

- HTTP handlers, vendor clients, SQL text and process execution: what they answer is an arbitrary outcome of a step.
- River's own retries and `RetryPipeline`: each job is delivered once.
- Failures of task, run and session-status writes and of the reads while chaining: only the writes and inserts whose
  failure changes the control flow's promises (retry counter, job insert) can fail in the model.
- Session columns other than status, retry count and limit, the generation rows, and the sandbox that stays behind when
  its session row cannot be created.
- The copilot review and e-mail jobs that the notify worker queues, and the in-app notification of a finished run.
- Completion of the synthesis, ingest and sync pipelines.
- Mutex sections are one step each; goroutine start-up is indistinguishable from waiting for a slot.
- Interleavings of duplicate lookup and mark across workers: a round of the embed loop is one step.
- `InsertSignalTx`: the same rule as `InsertSignal` inside a transaction.
- Failures of the near-duplicate lookup and of the mark itself: they leave the signal embedded and unmarked.
- Floating-point rounding and 64-bit overflow: reals and integers are exact; `math.Sqrt` is any real square root.
- Score, vendored, must-include and spec-mention heuristics, relevance reasons, content normalisation and the embedding
  distance are parameters: arbitrary functions.
- Pathname expansion, assignments, reserved words, aliases and here-documents of the shell: the lexer stops at token
  recognition and quote removal, and refuses expansions (`$`, backquote, a leading `~`), patterns, braces and `!`.
- Nil receivers and registries, `SandboxLimiter`, `SandboxCleaner`, plan limits, cost tables and crypto wrappers: they
  would only add easy members.
