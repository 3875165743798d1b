# Verification of the competition API

A Dafny model of the parts of the competition API in which several components have to agree, with proofs about all
inputs, all runs and all interleavings. `dafny verify dfyconfig.toml` checks everything.

**Verdicts.** A POV or patch is stored as a row, and a Kubernetes job evaluates it. The job's worker puts a final
message on a queue that delivers at least once. Two writers race to settle the row: the queue monitor and the job
controller. `Results` has both writers and the queue's `Dequeue` as imperative code over rows, audit log, jobs and
messages, each proved equal to a function on the database. `Protocol` makes one step relation of submissions,
launches, worker messages, deliveries, job events and deletions. The environment redelivers, runs workers twice,
confirms or loses enqueues, and fails any transaction or call. `Safety` proves what every reachable state satisfies,
`ServerProgress` that no launched row is stuck, and `Submissions` the handlers that start it all; `CommandLine` says what
the words of a job mean to the worker that reads them.

**Evaluations.** `GoErrors` models Go's error trees and `errors.As`. `Engine`, `RunPov`, `ApplyPatch` and `BuildRetry`
model the stages, `Pipeline` the nested control flow of the evaluator with its deadline race, for any stage outcomes.
`Evaluate` puts the real stages in and reads every verdict back to exit codes, files and parameters. `EndToEnd` joins
the two halves: from the row as stored to the worker run that earned it.

**Bundles.** `Bundle` models three-state fields, the two counters and the ownership query, `BundleRoutes` the three
request handlers over the table, and `BundleRuns` any interleaving of requests that work on stale rows.

**Caches and stores.** `CacheKey`, `KeyTexts` and `KeyShapes` say what a jobrunner cache key determines, `JobRunner`
builds key and arguments as the code does, and `JobCache` finds or starts the job and counts rows and jobs over serial
runs. `ContentStore` models uploads under the hash of the content through the retrying uploader.

**Crash classification.** `CrashInterpreter` proves the script's loops against first-match rules.

What the model finds of the code, stated exactly by the lemmas named:

- A failed update whose transaction commits all the same loses the message (`Results.VerdictLostIff`): the handler
  returns an error variable that is nil at that point. The protocol therefore takes a failed statement to make the
  commit fail.
- A build whose context was dead before its first attempt is reported `failed` with no attempt made
  (`BuildRetry.DeadContextReportsFailed`). The run is then reported `inconclusive`
  (`Evaluate.DeadBuildIsInconclusive`), because the context ends only by its deadline.
- A late evaluation can send `inconclusive` together with the test flag (`Evaluate.LateRunMayCarryTheFlag`); the
  monitor ignores the flag then (`EndToEnd.TestsColumn`).
- Interleaved PATCHes of a bundle lose updates (`BundleRuns.StalePatch`, `BundleRuns.LostUpdate`), but never break its
  size or ownership (`BundleRuns.StoredBundlesAreSound`).
- A PATCH that sets no reference is never accepted, because its ownership query is empty
  (`BundleRuns.NoReferenceIsRefused`), for instance one of the description alone
  (`BundleRuns.DescriptionOnlyIsRefused`).
- The cache key leaves out the architecture without a testcase (`CacheKey.SharedKeyIsSharedWork`,
  `CacheKey.ArchitectureIsNotKeyed`) and always memory and processors (`JobCache.ResourcesAreNotKeyed`).
- The key belongs to one request only if its texts have one line each, it has no base, not both a testcase and a
  patch, and no harness texts that read as the end of another key (`KeyShapes.OwnsKeyIff`). Every other request shares
  it with one that means different arguments, and may be served that one's job (`JobCache.AmbiguousMayBeServedOther`).
  Among requests of one shape newlines are the only reason (`KeyTexts.TextsAreDeterminedIff`).
- A commit that fails after the job was started, or a start that is reported as failed, leaves a job without a row
  (`JobCache.JobsAreConserved`, `JobCache.RowsAreJobs`).
- An empty record for a return code hides the misc section (`CrashInterpreter.EmptyRecordHidesMisc`).

Assumptions: the hashes are free of collisions; one statement of a transaction that fails changes nothing; the audit
event and the commit that follows it are one step; a worker's context ends only by its deadline and stays dead
(`Evaluate.Coherent`); a job completes only if a worker exited 0, which it does only after its final message was
confirmed; errors from outside the worker's packages carry no status error; identifiers of new rows are fresh; a
bundle request arrives and loads its row in one step, in the order of request times; a worker run for a row starts
from the arguments its job was created with.

## Model

| member | source | states |
|---|---|---|
| GoErrors.AsFindsFirst | competition-api/cmd/worker/internal/evaluate/evaluator.go:91-100 | `errors.As` on any error tree finds the first matching node, parents before children and left before right, and finds one iff there is one |
| GoErrors.ForeignHasNoStatus | competition-api/internal/worker_errors/worker_errors.go:32-55 | an error from outside the worker carries no status, so it is reported as `errored` |
| GoErrors.StatusSeenThrough | competition-api/internal/worker_errors/worker_errors.go:15-55 | a status is seen through every wrapping, an outer one hides inner ones, and of joined errors the first with a status counts |
| Engine.CheckClassified | competition-api/cmd/worker/internal/engine/aixcc.go:55-180 | the parameter check succeeds iff all parameters are confirmed, and reports `failed` iff one is refuted by what could be read; otherwise `errored` |
| Engine.BuildOnceClassified | competition-api/cmd/worker/internal/engine/aixcc.go:182-260 | one build reports `failed` iff the script exits 202 without a network excuse in its output, success iff it exits 0, `errored` otherwise |
| Engine.RunTestsClassified | competition-api/cmd/worker/internal/engine/aixcc.go:588-643 | the tests report `failed` with the test flag iff they exit 202, success iff they exit 0, `errored` otherwise |
| Engine.CheckMeans | competition-api/cmd/worker/internal/engine/aixcc.go:55-180 | exactly which parameters pass, which are held against the submission and which against the server, in plain conditions |
| Engine.NetworkIsExcused | competition-api/cmd/worker/internal/engine/aixcc.go:236-255 | a 202 whose output tells of an archive or dependency that was not reached is `errored` |
| Engine.TestsNeed | competition-api/cmd/worker/internal/engine/aixcc.go:588-643 | tests without a parameter they need are `errored`; with them `failed` and the flag iff they exit 202, success iff 0 |
| RunPov.Runner.RunPov | competition-api/cmd/worker/internal/engine/aixcc.go:262-444 | executions made, messages queued and the error returned are those of the declarative functions, on every outcome of executions, uploads, queue and files |
| RunPov.PovClassified | competition-api/cmd/worker/internal/engine/aixcc.go:428-439 | a run of the trigger reports `failed` iff nothing outside went wrong and the last exit code is 202 |
| RunPov.NoCrashWanted | competition-api/cmd/worker/internal/engine/aixcc.go:321-342 | without an expected crash: `failed` iff some execution returned 202; success iff three were made and the third exits 0; all before the last neither failed nor returned 202 |
| RunPov.CrashWanted | competition-api/cmd/worker/internal/engine/aixcc.go:321-342 | with an expected crash exactly one execution is made and its exit code decides |
| RunPov.OneCommandResult | competition-api/cmd/worker/internal/engine/aixcc.go:344-425 | absent upload, queue and file errors one command result is queued, for the last execution, followed by at most one artifact |
| RunPov.MessagesMean | competition-api/cmd/worker/internal/engine/aixcc.go:344-425 | in every environment: exactly which messages reach the queue and what stands in them |
| RunPov.PovNeeds | competition-api/cmd/worker/internal/engine/aixcc.go:262-300 | exactly which parameters a run needs; without one nothing is executed or sent and it is `errored` |
| ApplyPatch.PatchMeans | competition-api/cmd/worker/internal/engine/aixcc.go:446-586 | a patch is accepted iff every file not new is there before and every file not deleted is there after, readable and in an allowed language, under the path its name stands for with or without `a/` or `b/`, and git exits 0 |
| ApplyPatch.NamesDoNotMatter | competition-api/cmd/worker/internal/engine/aixcc.go:446-466 | prefixes, old names of new files and new names of deleted files change nothing of the outcome |
| ApplyPatch.PatchNeeds | competition-api/cmd/worker/internal/engine/aixcc.go:468-494 | exactly what applying a patch needs; a patch that does not parse is `failed` |
| ApplyPatch.Workspace.ScanFiles | competition-api/cmd/worker/internal/engine/aixcc.go:498-516 | the loop over the files of a patch keeps going after a forbidden language and stops at the first error |
| ApplyPatch.Workspace.ApplyPatch | competition-api/cmd/worker/internal/engine/aixcc.go:468-586 | error returned and tree left behind, on every patch, tree and outcome of git |
| ApplyPatch.ScanErrs | competition-api/cmd/worker/internal/engine/aixcc.go:666-693 | a scan ends in an error iff some file it looks at cannot be checked |
| ApplyPatch.ScanErrorReported | competition-api/cmd/worker/internal/engine/aixcc.go:666-693 | the report of a scan that errs is that of the first file that cannot be checked: missing files blame the patch, unreadable ones do not |
| ApplyPatch.ScanClassified | competition-api/cmd/worker/internal/engine/aixcc.go:468-586 | a scan answers true iff every file it looks at exists with an allowed language; answering false blames the patch, and so does an error iff a file is missing before any unreadable one |
| ApplyPatch.PatchClassified | competition-api/cmd/worker/internal/engine/aixcc.go:446-586 | a patch is accepted iff it parses, all old paths are acceptable before, git exits 0, and all new paths are acceptable after; it is `failed` iff it is at fault |
| ApplyPatch.NoReadErrors | competition-api/cmd/worker/internal/engine/aixcc.go:666-693 | without read errors every patch that does not apply is at fault |
| BuildRetry.Retry | competition-api/cmd/worker/internal/engine/build_retry.go:23-70 | at most one attempt more than the retries; records exactly the errors of the attempts made; says built iff some attempt succeeds |
| BuildRetry.AtMostFourAttempts | competition-api/cmd/worker/internal/engine/build_retry.go:23-32 | with the default factory four failures end the retrying, and only one of the first four attempts can succeed |
| BuildRetry.Build | competition-api/cmd/worker/internal/engine/build_retry.go:47-81 | the scan over the recorded errors yields the aggregate of all of them |
| BuildRetry.OrderDoesNotMatter | competition-api/cmd/worker/internal/engine/build_retry.go:67-81 | the verdict on a failed build is the same for every order of the recorded errors |
| BuildRetry.RecordedAttempts | competition-api/cmd/worker/internal/engine/build_retry.go:47-66 | the recorded errors are those of the attempts made, one each, in order |
| BuildRetry.BuildClassified | competition-api/cmd/worker/internal/engine/build_retry.go:47-81 | a build succeeds iff some attempt does; otherwise `failed` iff every attempt made was refused with 202 and no network excuse, else `errored` |
| BuildRetry.RefusedBuildWasAttempted | competition-api/cmd/worker/internal/engine/build_retry.go:47-81 | with a live context, a build reported `failed` had its first attempt refused |
| BuildRetry.DeadContextReportsFailed | competition-api/cmd/worker/internal/engine/build_retry.go:67-81 | a context dead before the first attempt leaves nothing recorded and the build is reported `failed` |
| Pipeline.CarryMeaning | competition-api/cmd/worker/internal/evaluate/evaluator.go:118-201 | carrying out a plan runs the stages up to and including the first that fails, and returns its error |
| Pipeline.PlanIsExactly | competition-api/cmd/worker/internal/evaluate/evaluator.go:118-323 | a plan has exactly the stages the request wants, in the order of the code |
| Pipeline.PlanIsTheOnlyOne | competition-api/cmd/worker/internal/evaluate/evaluator.go:118-323 | no other list has these stages in this order |
| Pipeline.Worker.RunPovTests | competition-api/cmd/worker/internal/evaluate/evaluator.go:204-234 | build, then run the trigger, stopping at the first error |
| Pipeline.Worker.RunBaseTests | competition-api/cmd/worker/internal/evaluate/evaluator.go:236-266 | fetch, build and run the trigger on the base |
| Pipeline.Worker.RunPatchTests | competition-api/cmd/worker/internal/evaluate/evaluator.go:268-323 | fetch, apply, build, run the trigger again if there is one, then the tests unless skipped |
| Pipeline.Worker.RunStages | competition-api/cmd/worker/internal/evaluate/evaluator.go:118-201 | the nested early exits carry out the plan: stages started and error returned |
| Pipeline.Worker.Evaluate | competition-api/cmd/worker/internal/evaluate/evaluator.go:50-116 | on every schedule exactly one final message is attempted, with the status and flag of the plan or `inconclusive`; the only error returned is that it could not be queued |
| Evaluate.MessagesAreLabelled | competition-api/cmd/worker/internal/engine/aixcc.go:401-419 | what the base stage sends carries the base context, what the head and retest stages send the head context |
| Evaluate.DirectoriesOfStages | competition-api/cmd/worker/internal/engine/params.go:36-47 | base and head are worked on in their own directories with the parameters given |
| Evaluate.TriggerOfRun | competition-api/cmd/worker/internal/evaluate/evaluator.go:150-170 | the trigger is used where it was fetched to, and without one nothing is run again after patching |
| Evaluate.StageClassified | competition-api/cmd/worker/internal/evaluate/evaluator.go:204-323 | the error of every stage reports what the facts of the run say; base and head builds are `errored` even when the wrapped error says `failed` |
| Evaluate.EvaluationMeaning | competition-api/cmd/worker/internal/evaluate/evaluator.go:118-201 | the first stage that is not good decides the report; if all are good there is no error |
| Evaluate.ReportIsAVerdict | competition-api/cmd/worker/internal/evaluate/evaluator.go:64-111 | the status sent is never `accepted`, and it is `inconclusive` iff the deadline passed first or while finishing |
| Evaluate.PassedMeans | competition-api/cmd/worker/internal/evaluate/evaluator.go:85-103 | `passed` iff every stage of the plan was good before the deadline |
| Evaluate.FailedMeans | competition-api/cmd/worker/internal/evaluate/evaluator.go:85-103 | `failed` iff in time and the deciding stage has one of the listed causes: a refuted parameter, a 202 of the program or the tests, a patch at fault, or a patch build whose first attempt was made and refused like every later one; builds of base and head are not among them |
| Evaluate.CutShortIsInconclusive | competition-api/cmd/worker/internal/evaluate/evaluator.go:85-103 | a run with a build that found its context dead before an attempt is reported `inconclusive` |
| Evaluate.DeadBuildIsInconclusive | competition-api/cmd/worker/internal/engine/build_retry.go:67-81 | a patch build with a dead context at its first attempt says `failed`, and the run `inconclusive` |
| Evaluate.TestFlagMeans | competition-api/cmd/worker/internal/engine/aixcc.go:629-638 | `failed` with the test flag iff in time and the tests were reached and exited 202 |
| Evaluate.LateRunMayCarryTheFlag | competition-api/cmd/worker/internal/evaluate/evaluator.go:91-109 | an evaluation that ends late sends `inconclusive`, with the flag iff it would have sent `failed` with the flag in time |
| Results.VerdictLostIff | competition-api/cmd/server/internal/jobs/queue_monitor.go:178-277 | a well-formed message for an accepted row is dropped without settling it iff the transaction commits although the update failed, or the message says `accepted` |
| Results.FinalMeans | competition-api/cmd/server/internal/jobs/queue_monitor.go:196-266 | what a final message does to an accepted row of any kind, its test result and the audit log, and exactly when its transaction fails |
| Results.AppendedMeans | competition-api/cmd/server/internal/jobs/queue_monitor.go:307-324 | an artifact or command result is dropped iff it was appended or is poison, and verdicts stay |
| Results.ReconcileMeans | competition-api/cmd/server/internal/jobs/controller.go:242-369 | what a job event does to the rows and the audit log, when settling fails, and that every failed or completed job is to be deleted unless settling failed |
| Results.DeliveredMeans | competition-api/internal/queue/azure.go:96-131 | the first message found is delivered, if only empty polls came before it |
| Results.Backend.HandleJobUpdate | competition-api/cmd/server/internal/jobs/controller.go:235-370 | if deletion works, a job leaves the cluster iff it failed and settling did not fail, or it only completed; other jobs stay |
| Results.Backend.HandleFinalMessage | competition-api/cmd/server/internal/jobs/queue_monitor.go:178-277 | row, audit log and error after any message and any failing statement |
| Results.Backend.GuardedUpdate | competition-api/cmd/server/internal/jobs/queue_monitor.go:200-227 | the update changes the row iff it is still accepted |
| Results.Backend.SettleFailed | competition-api/cmd/server/internal/jobs/controller.go:269-355 | the controller's transaction: accepted becomes `errored` with one event, or nothing |
| Results.Backend.ProcessJobUpdate | competition-api/cmd/server/internal/jobs/controller.go:373-433 | a work item is put back iff the job was seen and handling it failed; rows and jobs are then as handling leaves them |
| Results.PoisonIsDropped | competition-api/cmd/server/internal/jobs/queue_monitor.go:279-349 | a message that cannot be read, has an unknown type, or is for nothing is dropped and changes nothing |
| Results.Monitor.Dequeue | competition-api/internal/queue/azure.go:82-163 | a message of any kind is deleted iff it was handled or is poison and the deletion works; otherwise it stays |
| Submissions.Frontend.SubmitPOV | competition-api/cmd/server/internal/routes/v1/pov.go:25-276 | protocol steps taken, arguments of the job created, and answer, for every submission, task, time and fault: a POV needs a task with harnesses, its row is inserted before its job, a late one gets no job |
| Submissions.Frontend.SubmitPatch | competition-api/cmd/server/internal/routes/v1/patch.go:26-255 | the same for patches, which need no harnesses and never pass a base |
| Submissions.TakenMeans | competition-api/cmd/server/internal/routes/v1/pov.go:145-255 | a submission that is answered has its row with the status answered, and its job iff it was in time and there is a cluster |
| Submissions.JobFlags | competition-api/cmd/server/internal/routes/v1/pov.go:217-234 | exactly which flags a submission's job is given |
| Submissions.AnswerMeans | competition-api/cmd/server/internal/routes/v1/pov.go:67-105 | exactly when a submission is refused as bad, taken, inserted and launched |
| Submissions.JobGives | competition-api/cmd/server/internal/routes/v1/pov.go:217-234 | under every flag the worker of a submission finds what the submission, its task and its row say |
| Submissions.WorkerReportsForRow | competition-api/cmd/server/internal/routes/v1/pov.go:227-228 | a worker started with a row's job's arguments reports for that row |
| Submissions.WorkerEvaluatesRow | competition-api/cmd/server/internal/routes/v1/patch.go:210-221 | and evaluates that row: a POV with the base iff the task is a delta task, a patch without trigger and base |
| Submissions.TakenIsNeverLost | competition-api/cmd/server/internal/routes/v1/patch.go:146-241 | in every run in which the steps of a submission answered in time were taken, whatever happened between them, it is settled, or still accepted with its job in the cluster or a message on the queue |
| Submissions.LateIsNeverEvaluated | competition-api/cmd/server/internal/routes/v1/patch.go:153-161 | a late submission never gets a job or a message and never changes |
| Safety.EveryActionKeeps | competition-api/cmd/server/internal/jobs/queue_monitor.go:178-277 | every step of the protocol keeps the invariant |
| Safety.NoVerdictIsLost | competition-api/cmd/server/internal/jobs/controller.go:235-370 | in every reachable state a row still accepted has its job in the cluster or a final message on the queue iff its job was ever created |
| Safety.AuditAgrees | competition-api/cmd/server/internal/jobs/queue_monitor.go:253-266 | the audit log holds exactly one event for each settled row, with the row's present status and test result, and none for others |
| Safety.SettledRows | competition-api/cmd/server/internal/jobs/queue_monitor.go:196-255 | an unsettled row has no test result; a settled one is as the controller or one of its own messages writes it |
| Safety.FinalRowsStay | competition-api/cmd/server/internal/jobs/controller.go:269-331 | over any run a row that is not accepted never changes |
| Safety.FirstVerdictWins | competition-api/cmd/server/internal/jobs/queue_monitor.go:196-255 | the step that changes a row finds it accepted and unsettled, gives it a verdict, and no later step of any run changes it |
| Safety.UnlaunchedRowsWait | competition-api/cmd/server/internal/routes/v1/pov.go:239-255 | a row whose job could not be created is never settled |
| Safety.MonitorStep | competition-api/cmd/server/internal/jobs/queue_monitor.go:178-277 | a message that may be deleted leaves its row settled |
| Safety.ControllerStep | competition-api/cmd/server/internal/jobs/controller.go:235-370 | a job that may be deleted completed or has its row settled |
| ServerProgress.ServerCanSettle | competition-api/internal/queue/azure.go:138-153 | a launched row still accepted has a job that is still running, or steps of the server alone settle it |
| ServerProgress.VerdictRunsItsCourse | competition-api/cmd/server/internal/jobs/queue_monitor.go:178-277 | every verdict can run its course: a run from the start to a row with that verdict, one event, and no job, message or handler left |
| ServerProgress.FailureRunsItsCourse | competition-api/cmd/server/internal/jobs/controller.go:235-370 | a job that failed without a word can be settled as `errored` and removed |
| EndToEnd.SelectEntity | competition-api/cmd/worker/cmds/eval.go:88-101 | the last identifier flag given decides whom the worker reports for |
| EndToEnd.MessageIsTheWorkers | competition-api/internal/types/worker.go:82-101 | a worker of a row's job sends the row's own identity with the verdict of its run |
| EndToEnd.MessagesComeFromWorkers | competition-api/cmd/worker/internal/workerqueue/worker_queuer.go:74-98 | every message of a run was put on the queue by an enqueue step with that very content |
| EndToEnd.SettledByRun | competition-api/cmd/server/internal/jobs/queue_monitor.go:200-227 | a row settled by a message has the status and test result that one of its own worker runs reported |
| EndToEnd.PassedWasEarned | competition-api/cmd/server/internal/jobs/queue_monitor.go:196-255 | a row stored as `passed` had a run of its own with every stage good before the deadline |
| EndToEnd.FailedWasCaused | competition-api/cmd/server/internal/jobs/queue_monitor.go:196-255 | a row stored as `failed` had a run of its own whose deciding stage has one of the causes of failure |
| EndToEnd.TestsColumn | competition-api/cmd/server/internal/jobs/queue_monitor.go:211-227 | a patch's test result is null until settled and if the controller settled it, else false iff the settling run exited its tests with 202 in time; false only with `failed` |
| EndToEnd.GoodPatchRun | competition-api/cmd/worker/internal/evaluate/evaluator.go:268-323 | a good run of a patch applied it, built it in at most four attempts and had its tests exit 0 |
| EndToEnd.GoodRetest | competition-api/cmd/worker/internal/evaluate/evaluator.go:268-323 | a good run with a patch applied and built it; with a trigger the patched program ran three times without a 202 and exited 0 the third time; its tests exited 0 unless skipped |
| EndToEnd.CrashAfterPatchFails | competition-api/cmd/worker/internal/evaluate/evaluator.go:302-309 | a patched program that still crashes makes the run `failed`, if all before went well and in time |
| EndToEnd.GoodPovRun | competition-api/cmd/worker/internal/evaluate/evaluator.go:204-266 | a good run of a POV crashed the head as wanted, and a given base was executed three times without a crash |
| CommandLine.IdentityMeans | competition-api/cmd/worker/cmds/eval.go:88-101 | a patch identifier overrides a POV identifier, which overrides a job identifier |
| CommandLine.ArgumentsGive | competition-api/cmd/worker/cmds/eval.go:172-220 | under every flag the worker of a jobrunner job finds what its work says, and nothing under the others |
| Bundle.ApplyByField | competition-api/internal/types/types.go:32-46 | applying a request sets each field to the value or null it defines and keeps the others |
| Bundle.ParseMeaning | competition-api/internal/types/bundle.go:66-107 | parsing fails iff an identifier that is set is unreadable; otherwise every field is read for itself, with nothing and null kept apart |
| Bundle.ValidateFieldCount | competition-api/internal/types/bundle.go:38-64 | passes iff at least two fields are defined and not null |
| Bundle.RawCountIsPresent | competition-api/internal/types/bundle.go:38-107 | the raw count is the number of non-null fields the parsed request gives an empty bundle |
| Bundle.Loaded.CountNotNull | competition-api/cmd/server/internal/models/bundle.go:136-164 | counts the non-null fields the bundle would have after the request |
| Bundle.Loaded.CheckAndSetRelations | competition-api/cmd/server/internal/models/bundle.go:62-133 | changes the loaded bundle in every case; answers true iff the request sets some reference and every one it sets is owned |
| Bundle.Loaded.Take | competition-api/cmd/server/internal/models/bundle.go:68-77 | one clause and one named value for a reference being set, and the field set or cleared |
| Bundle.QueryMeaning | competition-api/cmd/server/internal/models/bundle.go:122-130 | the generated query holds iff every reference being set exists for the bundle's task and, but for broadcast SARIFs, submitter; it is empty iff none is set |
| Bundle.NewBundleSetsReference | competition-api/cmd/server/internal/routes/v1/bundle.go:85-131 | a new bundle that passes the count never reaches the empty query |
| BundleRoutes.Handler.SubmitBundle | competition-api/cmd/server/internal/routes/v1/bundle.go:20-162 | when a bundle is stored, with which fields and status, and exactly when it is refused as bad or as naming something not owned |
| BundleRoutes.Handler.PatchBundle | competition-api/cmd/server/internal/routes/v1/bundle.go:164-329 | a PATCH stores the loaded row changed by its fields iff owner, deadline, parse, count and relations agree and no statement fails; a refused one stores nothing, yet has changed the loaded bundle past the count |
| BundleRoutes.Handler.DeleteBundle | competition-api/cmd/server/internal/routes/v1/bundle.go:404-489 | a DELETE is answered as done iff owner and deadline agree and the statement works, and then the stored row is deleted |
| BundleRoutes.SubmitMeans | competition-api/cmd/server/internal/routes/v1/bundle.go:96-139 | an accepted POST adds one live row of the requester with exactly the fields it sets, late iff after the deadline |
| BundleRoutes.PatchMeans | competition-api/cmd/server/internal/routes/v1/bundle.go:267-298 | an accepted PATCH writes the loaded row with what it defines, and changes no other row |
| BundleRoutes.DeleteMeans | competition-api/cmd/server/internal/routes/v1/bundle.go:448-480 | an accepted DELETE marks the stored row and changes nothing else; any other changes nothing |
| BundleRoutes.RefusedChangesNothing | competition-api/cmd/server/internal/routes/v1/bundle.go:219-298 | a refused request changes nothing |
| BundleRoutes.PatchAccepted | competition-api/cmd/server/internal/routes/v1/bundle.go:219-298 | exactly when a PATCH is accepted: owner, time, readable identifiers, two different fields left, some reference set, all owned, no fault |
| BundleRoutes.SubmitAccepted | competition-api/cmd/server/internal/routes/v1/bundle.go:85-139 | exactly when a POST is accepted; a deadline does not refuse it |
| Bundle.TwoFields | competition-api/cmd/server/internal/models/bundle.go:136-164 | the count is at least two iff two different fields hold something |
| BundleRuns.StoredBundlesAreSound | competition-api/cmd/server/internal/routes/v1/bundle.go:267-298 | under any interleaving two different fields of a stored bundle hold something, and every reference exists, is its task's and, but for broadcast SARIFs, its submitter's |
| BundleRuns.DeletedIsGone | competition-api/cmd/server/internal/routes/v1/bundle.go:448-480 | a DELETE in time leaves its row deleted and otherwise as it was, and no request can load the bundle any more unless a stale save brings it back |
| BundleRuns.EveryActionKeeps | competition-api/cmd/server/internal/routes/v1/bundle.go:220-298 | every step of interleaved requests keeps the invariant on rows and on stale loaded rows |
| BundleRuns.ChangesAreInTime | competition-api/cmd/server/internal/routes/v1/bundle.go:219-238 | a row changes only by a request its owner sent before the deadline, while accepted |
| BundleRuns.LateBundlesStay | competition-api/cmd/server/internal/routes/v1/bundle.go:110-117 | owner, task and status of a bundle never change, and a `deadline_exceeded` bundle is never changed or deleted |
| BundleRuns.NoReferenceIsRefused | competition-api/cmd/server/internal/models/bundle.go:122-130 | a PATCH that sets no reference makes an empty query and is never accepted |
| BundleRuns.DescriptionOnlyIsRefused | competition-api/cmd/server/internal/routes/v1/bundle.go:267-290 | an instance: an owner's PATCH of the description alone, in time, passes the count and is refused |
| BundleRuns.LastDefinitionWins | competition-api/cmd/server/internal/models/bundle.go:62-120 | after PATCHes one after the other each field is what the last accepted one that defined it says, or what it was |
| BundleRuns.SerialRun | competition-api/cmd/server/internal/routes/v1/bundle.go:164-329 | loading and finishing PATCHes one after the other leads to the row that list of PATCHes gives |
| BundleRuns.StalePatch | competition-api/cmd/server/internal/routes/v1/bundle.go:292-298 | an accepted PATCH, however stale the row it loaded, gives a field another value than it would on the present row iff it does not define the field and the field is no longer what was loaded |
| BundleRuns.StalePair | competition-api/cmd/server/internal/routes/v1/bundle.go:292-298 | of two accepted PATCHes in flight the second undoes what the first left in a field iff it does not define the field and had loaded another value |
| BundleRuns.LostUpdate | competition-api/cmd/server/internal/routes/v1/bundle.go:292-298 | a reachable run in which an accepted field is lost to an interleaved PATCH that does not mention it |
| CacheKey.JoinIsInjective | competition-api/cmd/server/internal/routes/jobrunner/jobrunner.go:477 | the joined text determines the list of components if none has a newline |
| CacheKey.ShapeFromLength | competition-api/cmd/server/internal/routes/jobrunner/jobrunner.go:229-254 | the length of the list tells whether base, testcase and patch are there |
| CacheKey.KeyReads | competition-api/cmd/server/internal/routes/jobrunner/jobrunner.go:172-269 | the list to hash, part by part, for requests of every shape |
| CacheKey.PartsDetermine | competition-api/cmd/server/internal/routes/jobrunner/jobrunner.go:172-269 | two lists are equal iff all keyed components agree, the architecture only with a testcase |
| CacheKey.ArgumentsDetermined | competition-api/cmd/server/internal/routes/jobrunner/jobrunner.go:262-279 | requests that agree on the key get the same arguments iff they agree on the architecture, on URL versus hash of each source, and on passing a base |
| CacheKey.SameKeyMeaning | competition-api/cmd/server/internal/routes/jobrunner/jobrunner.go:364-378 | two requests share a key iff all keyed components agree, and then share arguments iff they agree on what is not keyed |
| CacheKey.SharedKeyIsSharedWork | competition-api/cmd/server/internal/routes/jobrunner/jobrunner.go:364-378 | if URLs differ from hashes and a base is always passed on, a shared key means the same arguments iff the architecture is the same, and always with a testcase |
| CacheKey.ArchitectureIsNotKeyed | competition-api/cmd/server/internal/routes/jobrunner/jobrunner.go:370-378 | without a testcase any other architecture gives the same key and other arguments |
| KeyShapes.OwnsKeyIff | competition-api/cmd/server/internal/routes/jobrunner/jobrunner.go:172-269 | for any set of possible blob names, a request shares its key with no request that disagrees on a keyed component iff its texts have one line each, it has no base, not both testcase and patch, and harness texts that do not read as the end of another key (the engine a boolean; or the sanitizer a boolean, the harness `patch` and the engine a blob name) |
| KeyShapes.AmbiguousCollides | competition-api/cmd/server/internal/routes/jobrunner/jobrunner.go:477 | every other request shares its key with one that has different arguments and needs no task |
| KeyShapes.BaseCollides | competition-api/cmd/server/internal/routes/jobrunner/jobrunner.go:247-254 | a base can be taken for a second line of the tooling: every request with a base collides |
| KeyShapes.BothCollide | competition-api/cmd/server/internal/routes/jobrunner/jobrunner.go:370-378 | a patch can be taken for more lines of the engine: every request with testcase and patch collides |
| KeyTexts.TextsAreDeterminedIff | competition-api/cmd/server/internal/routes/jobrunner/jobrunner.go:477 | among requests of one shape with the same blobs, the key determines every text (request key, sources, focus, project, and with a testcase architecture, sanitizer, harness and engine) iff none of them has a newline |
| KeyTexts.PairDeterminedIff | competition-api/cmd/server/internal/routes/jobrunner/jobrunner.go:477 | two neighbours anywhere in a joined list are told apart iff neither has a newline |
| KeyTexts.FocusDeterminedIff | competition-api/cmd/server/internal/routes/jobrunner/jobrunner.go:262-269 | all else given, the key determines focus and project name iff neither has a newline |
| KeyTexts.NewlineMergesKeys | competition-api/cmd/server/internal/routes/jobrunner/jobrunner.go:477 | an instance: two requests with different focus and project share a key and get different arguments |
| JobRunner.TaskMeaning | competition-api/cmd/server/internal/routes/jobrunner/jobrunner.go:174-211 | a request is refused as bad iff its task identifier is malformed or, with a working lookup, unknown; an accepted one has the stored task, with a base source if it is a delta task |
| JobRunner.BlobMeaning | competition-api/cmd/server/internal/routes/jobrunner/jobrunner.go:281-358 | an accepted blob is stored already or is the hash of the data given, and data wins; exactly when the data or the given hash is to blame |
| JobRunner.BlobFound | competition-api/cmd/server/internal/routes/jobrunner/jobrunner.go:281-358 | a blob is found iff nothing fails, a given name is stored, and given data is short enough and decodes |
| JobRunner.ResolveMeans | competition-api/cmd/server/internal/routes/jobrunner/jobrunner.go:159-475 | a request is resolved iff task, testcase and patch are found and there is a cluster; the first that is not gives the refusal |
| JobRunner.PlainGetsTheTask | competition-api/cmd/server/internal/models/task.go:61-105 | a request that overrides nothing gets its task's sources, focus and project, and the base iff it is a delta task |
| JobRunner.SourcesOverride | competition-api/cmd/server/internal/routes/jobrunner/jobrunner.go:229-254 | each source a request gives replaces the task's, and nothing else |
| JobRunner.TextsOverride | competition-api/cmd/server/internal/routes/jobrunner/jobrunner.go:213-228 | each text a request gives replaces the task's, and nothing else |
| JobRunner.DataOrHash | competition-api/cmd/server/internal/routes/jobrunner/jobrunner.go:281-469 | giving stored data again or naming it by its hash resolves to the same work, hence the same key and arguments |
| JobRunner.AskedByRequest | competition-api/cmd/server/internal/routes/jobrunner/jobrunner.go:159-469 | any work with URLs for its sources, no base and stored blobs is asked for by a request |
| JobRunner.Front | competition-api/cmd/server/internal/routes/jobrunner/jobrunner.go:213-279 | arguments and key components that need no blob, with the request's values over the task's |
| JobRunner.Prepare | competition-api/cmd/server/internal/routes/jobrunner/jobrunner.go:159-469 | arguments, list to hash, memory and processors are those of the work the request asks for; refusals as in the code |
| JobRunner.AddBlobs | competition-api/cmd/server/internal/routes/jobrunner/jobrunner.go:281-469 | testcase and patch extend arguments and key, the testcase first |
| JobRunner.ResolvedIsTidy | competition-api/cmd/server/internal/models/task.go:61-105 | requests with real URLs, over tasks whose base source is there iff they are delta tasks, meet the condition of a sound key |
| JobCache.Server.Find | competition-api/cmd/server/internal/routes/jobrunner/jobrunner.go:487-488 | finds the newest row with the key, if there is one |
| JobCache.Server.FindOrCreate | competition-api/cmd/server/internal/routes/jobrunner/jobrunner.go:479-518 | one row and one job on a miss or override, none on a hit, and no row if the job or the commit fails |
| JobCache.Server.DoJobWork | competition-api/cmd/server/internal/routes/jobrunner/jobrunner.go:159-539 | a whole request: state and answer are those of a visit with the work it asks for |
| JobCache.OutcomeMeans | competition-api/cmd/server/internal/routes/jobrunner/jobrunner.go:479-518 | which failures matter to a hit and to a miss, and what each leaves of rows and jobs |
| JobCache.AnswerIsStored | competition-api/cmd/server/internal/routes/jobrunner/jobrunner.go:479-518 | a committed request is answered with the newest stored row of its key |
| JobCache.StartedForItsRow | competition-api/cmd/server/internal/routes/jobrunner/jobrunner.go:495-510 | a started job is given its work, its resources and, under the job flag and no other identifier, its own identifier |
| JobCache.ResourcesOfCall | competition-api/cmd/server/internal/routes/jobrunner/jobrunner.go:222-228 | a job has the request's memory and processors, else its task's |
| JobCache.RowIsSettledByItsWorker | competition-api/cmd/server/internal/jobs/queue_monitor.go:228-242 | every row's job was started, and its worker's final message settles exactly that row |
| JobCache.JobsAreConserved | competition-api/cmd/server/internal/routes/jobrunner/jobrunner.go:479-518 | over any serial run the jobs started are, with multiplicity, the committed rows and the jobs whose row was rolled back |
| JobCache.RowsAreJobs | competition-api/cmd/server/internal/routes/jobrunner/jobrunner.go:479-518 | rows and started jobs are the same list iff no miss is unconfirmed or loses its commit after the launch |
| JobCache.CommitLostAfterLaunch | competition-api/cmd/server/internal/routes/jobrunner/jobrunner.go:479-518 | an instance: one miss whose commit fails after the launch leaves a job without a row |
| JobCache.RowsPerKey | competition-api/cmd/server/internal/routes/jobrunner/jobrunner.go:483-490 | each key has a row for each successful override and one more iff its first success was not an override |
| JobCache.HitServesSameWork | competition-api/cmd/server/internal/routes/jobrunner/jobrunner.go:498-516 | over visits, a hit names the newest row of the key, whose job was started by an earlier visit with the same keyed components |
| JobCache.UnambiguousIsServedItsOwn | competition-api/cmd/server/internal/routes/jobrunner/jobrunner.go:498-516 | whatever visits came first, a hit of an unambiguous one names a job started for the same keyed components, with the same arguments iff they agree on what is not keyed |
| JobCache.AmbiguousMayBeServedOther | competition-api/cmd/server/internal/routes/jobrunner/jobrunner.go:498-516 | every ambiguous visit can hit a job with other arguments, started by an earlier request |
| JobCache.HitAfterAnything | competition-api/cmd/server/internal/routes/jobrunner/jobrunner.go:498-516 | the same over any serial list of requests: one with an unambiguous key is served the job of a request that agrees on all that is keyed |
| JobCache.ResourcesAreNotKeyed | competition-api/cmd/server/internal/routes/jobrunner/jobrunner.go:222-228 | any other memory and processors hit the job started with the first ones, which keeps its own |
| JobCache.ServedIsRun | competition-api/cmd/server/internal/routes/jobrunner/jobrunner.go:159-539 | serving a list of requests one after the other is the run of the visits of those not refused |
| JobCache.HitServesSameRequest | competition-api/cmd/server/internal/routes/jobrunner/jobrunner.go:498-516 | a request that hits after any serial list of requests is answered with the job one of them started, given the same arguments iff the architectures agree, which they do with a testcase, and the resources of the request that started it |
| ContentStore.Store.Upload | competition-api/internal/upload/retry.go:106-145 | works iff some try works before one cannot rewind; stores nothing but the whole buffer, whatever failed tries consumed |
| ContentStore.RunsKeepContent | competition-api/internal/upload/uploader.go:31-41 | over any run of the changes that `Hashed` and `CopyTo` make (at most one each, as their contracts say), both stores stay content addressed, no object changes or goes, and they agree on common names |
| ContentStore.TriesGoOn | competition-api/internal/upload/retry.go:106-145 | a failed try is followed by another: what comes after any number of them decides |
| ContentStore.QueriesGoOn | competition-api/internal/upload/retry.go:40-71 | the first answer counts, after any number of failed questions |
| ContentStore.Store.Exists | competition-api/internal/upload/retry.go:40-71 | answers with the first query that does not fail, and never invents an object |
| ContentStore.Store.Hashed | competition-api/internal/upload/uploader.go:42-95 | on success the store maps the returned hash to the whole buffer, wherever the reader was; names stay hashes of contents and no object changes; when it succeeds |
| ContentStore.Store.CopyTo | competition-api/cmd/server/internal/jobs/queue_monitor.go:65-93 | copying an artifact keeps the archive content addressed and changes no object of it |
| CrashInterpreter.DetectSanitizerCrash | competition-api/scripts/crash_interpret_config.py:156-173 | the loop finds the first matching pattern of the sanitizer |
| CrashInterpreter.DetermineMisc | competition-api/scripts/crash_interpret_config.py:77-103 | a record that is not empty for the code, else the first matching pattern, else nothing |
| CrashInterpreter.ScanEngines | competition-api/scripts/crash_interpret_config.py:130-142 | the loop returns the record of the first deciding entry, and otherwise leaves the empty record iff the last entry of the engine has one |
| CrashInterpreter.InterpretReturnCode | competition-api/scripts/crash_interpret_config.py:107-153 | refines the first-match rules for every configuration, with the empty record as the code treats it |
| CrashInterpreter.RunAnalysis | competition-api/scripts/crash_interpret_config.py:176-206 | label and exit code for every configuration and run |
| CrashInterpreter.DecidedVerdict | competition-api/scripts/crash_interpret_config.py:130-142 | the first deciding entry gives the exit code: 1 without a significance, its number, or for null what the sanitizer says |
| CrashInterpreter.MiscVerdict | competition-api/scripts/crash_interpret_config.py:77-103 | otherwise a misc record for the code does, else the first misc pattern found |
| CrashInterpreter.FoundMeans | competition-api/scripts/crash_interpret_config.py:96-100 | a pattern counts iff it has a category and an expression, neither empty, that is found |
| CrashInterpreter.DetectedIsFirst | competition-api/scripts/crash_interpret_config.py:166-171 | the crash named is the category of the first pattern found |
| CrashInterpreter.SpellingDoesNotMatter | competition-api/scripts/crash_interpret_config.py:119-130 | engine names are compared in lower case |
| CrashInterpreter.DefaultVerdict | competition-api/scripts/crash_interpret_config.py:194-206 | with nothing configured the code is 213 iff a sanitizer pattern matches, else 0 |
| CrashInterpreter.EngineIsKnown | competition-api/scripts/crash_interpret_config.py:122-126 | the analysis goes on iff some entry has the engine's name |
| CrashInterpreter.OtherEnginesDoNotMatter | competition-api/scripts/crash_interpret_config.py:128-142 | an entry of another engine, wherever it stands, changes nothing |
| CrashInterpreter.DemandIsMet | competition-api/scripts/crash_interpret_config.py:133-136 | a record that demands a sanitizer decides only if a sanitizer pattern matches |
| CrashInterpreter.EmptyRecordHidesMisc | competition-api/scripts/crash_interpret_config.py:144-147 | the rules are as they read iff an entry decides, the last entry has no empty record, or the misc section says nothing |
| CrashInterpreter.EmptyRecordExample | competition-api/scripts/crash_interpret_config.py:144-147 | an empty record that turns a configured misc error 212 into 0 |

## Left out

- HTTP binding, field validation, authentication and permission checks: a request arrives with its sender, task, time and body.
- Azure, MinIO, Kubernetes, GitHub, git, docker and tar: nondeterministic success or failure on abstract stores and queues.
- Message expiry on the queue and clean-up of jobs by the cluster itself: messages and jobs go only as the code deletes them.
- Telemetry, logging and the text of audit records: an event is the row, its status and its test result.
- Artifact and command-result appends to rows: redelivery appends again by design.
- The jobrunner's rows in the no-lost-verdict invariant: their job is created before the row commits.
- Uniqueness of cached jobs under concurrent requests: the code has no constraint on the key, so `JobCache` speaks of serial runs.
- Stages a timed-out worker's abandoned evaluation still runs: after the deadline `Pipeline.Worker.Evaluate` says nothing of the log.
- The body of `Save` on a row deleted meanwhile: whether it revives the row is the database library's business, so both are allowed.
- Responses of `GetBundle`, bundle audit records and the presigned links of answers: reads without effect on the state modelled.
- Bundle.Loaded.CheckAndSetRelations: the empty query is an error of the request, not further modelled; either way nothing is stored.
- JobRunner.Prepare: uploading given data is a name (the hash) or a failure; `ContentStore.Store.Hashed` has the upload itself.
- JobRunner.BlobMeaning: presigning is one fault, and a blob stored before a later refusal stays, which the state does not show.
- JobCache.Server.FindOrCreate: rows are in the order of their creation times, so the newest is the last.
- CrashInterpreter.RunAnalysis: nulls in place of mappings and lists other than code records, and patterns that do not compile, make the script raise and are not modelled; lower-casing and pattern search are parameters.
- Submissions.Frontend.Take: the upload and the archive of the file are one fault each, and the audit event of a submission is left out.
- Bulk requests and result polling of the jobrunner: repeated single requests, and reads.
- Redis rate limiting, the GitHub webhook, `helper.py`, the SARIF schema, migrations and configuration loading: easy members, or rules of libraries that are not shown.
