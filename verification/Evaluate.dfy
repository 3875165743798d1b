// One worker run with the real engine: what the status it reports says about the facts.
module Evaluate {
  import opened Types
  import opened GoErrors
  import opened Engine
  import opened RunPov
  import opened ApplyPatch
  import opened BuildRetry
  import opened Pipeline

  // Everything a run is given and everything its environment answers. URLs are "" when absent.
  datatype Run = Run(
    baseURL: string,
    triggerURL: string,
    patchURL: string,
    skipPatchTests: bool,
    params: Params,
    tooling: Result<string, ForeignError>,
    head: Result<string, ForeignError>,
    base: Result<string, ForeignError>,
    trigger: Result<string, ForeignError>,
    patchFile: Result<string, ForeignError>,
    check: CheckEnv,
    baseBuild: BuildEnv,
    headBuild: BuildEnv,
    patchBuild: BuildEnv,
    basePov: PovEnv,
    headPov: PovEnv,
    patchPov: PovEnv,
    patch: Option<seq<PatchFile>>,
    before: Tree,
    git: Git,
    tests: Exec,
    schedule: Schedule)
  {
    function HeadParams(): Params {
      params.WithFuzzToolingDir(PathOf(tooling)).WithRepo(HeadRepoTest, PathOf(head))
    }

    function BaseParams(): Params {
      HeadParams().WithRepo(BaseRepoTest, PathOf(base))
    }

    function TriggerPath(): string {
      if triggerURL != "" then PathOf(trigger) else ""
    }

    function Wants(): Request {
      Request(baseURL, triggerURL, TriggerPath(), patchURL, skipPatchTests)
    }
  }

  function PathOf(fetched: Result<string, ForeignError>): string {
    if fetched.Ok? then fetched.value else ""
  }

  function FetchError(fetched: Result<string, ForeignError>): Option<Err> {
    if fetched.Ok? then None else Some(fetched.error)
  }

  // Base and head builds are the server's responsibility: their failures are wrapped as errored.
  function AsErrored(outcome: Option<Err>): Option<Err> {
    if outcome.None? then None else Some(StatusError(Errored, false, outcome))
  }

  function StageError(run: Run, stage: Stage): Option<Err> {
    match stage
    case FetchTooling => FetchError(run.tooling)
    case FetchHead => FetchError(run.head)
    case CheckParams => Check(run.HeadParams(), run.check)
    case FetchTrigger => FetchError(run.trigger)
    case FetchBase => FetchError(run.base)
    case BuildBase => AsErrored(BuildOutcome(run.BaseParams(), run.baseBuild, DEFAULT_MAX_RETRIES))
    case PovBase => PovOutcome(run.BaseParams(), run.TriggerPath(), false, run.basePov)
    case BuildHead => AsErrored(BuildOutcome(run.HeadParams(), run.headBuild, DEFAULT_MAX_RETRIES))
    case PovHead => PovOutcome(run.HeadParams(), run.TriggerPath(), true, run.headPov)
    case FetchPatch => FetchError(run.patchFile)
    case PatchTree => PatchOutcome(run.HeadParams(), run.patch, run.before, run.git)
    case BuildPatch => BuildOutcome(run.HeadParams(), run.patchBuild, DEFAULT_MAX_RETRIES)
    case PovPatch => PovOutcome(run.HeadParams(), run.TriggerPath(), false, run.patchPov)
    case TestPatch => RunTests(run.HeadParams(), run.tests)
  }

  function OutcomesOf(run: Run): Outcomes {
    stage => StageError(run, stage)
  }

  function Stages(run: Run): seq<Stage> { Plan(run.Wants()) }

  // The final message's status and test flag.
  function Report(run: Run): (Status, bool) {
    Sent(run.Wants(), OutcomesOf(run), run.schedule)
  }

  // A stage read off the facts of the run: files, exit codes and parameters, no error values.
  function StageClass(run: Run, stage: Stage): Class {
    match stage
    case FetchTooling => if run.tooling.Ok? then Good else Broken
    case FetchHead => if run.head.Ok? then Good else Broken
    case CheckParams => CheckClass(run.HeadParams(), run.check)
    case FetchTrigger => if run.trigger.Ok? then Good else Broken
    case FetchBase => if run.base.Ok? then Good else Broken
    case BuildBase => if Succeeds(run.BaseParams(), run.baseBuild, DEFAULT_MAX_RETRIES) then Good else Broken
    case PovBase => PovClass(run.BaseParams(), run.TriggerPath(), false, run.basePov)
    case BuildHead => if Succeeds(run.HeadParams(), run.headBuild, DEFAULT_MAX_RETRIES) then Good else Broken
    case PovHead => PovClass(run.HeadParams(), run.TriggerPath(), true, run.headPov)
    case FetchPatch => if run.patchFile.Ok? then Good else Broken
    case PatchTree => PatchClass(run.HeadParams(), run.patch, run.before, run.git)
    case BuildPatch => BuildClass(run.HeadParams(), run.patchBuild, DEFAULT_MAX_RETRIES)
    case PovPatch => PovClass(run.HeadParams(), run.TriggerPath(), false, run.patchPov)
    case TestPatch => RunTestsClass(run.HeadParams(), run.tests)
  }

  // What the base and head stages send is labelled with their own context.
  lemma MessagesAreLabelled(run: Run, m: WorkerMsg)
    ensures m in PovMessages(run.BaseParams(), run.TriggerPath(), false, run.basePov) ==>
              m.context == BaseRepoTest && (m.Artifact? ==> m.forBase)
    ensures m in PovMessages(run.HeadParams(), run.TriggerPath(), true, run.headPov)
            || m in PovMessages(run.HeadParams(), run.TriggerPath(), false, run.patchPov) ==>
              m.context == HeadRepoTest && (m.Artifact? ==> !m.forBase)
  {
    MessagesMean(run.BaseParams(), run.TriggerPath(), false, run.basePov);
    MessagesMean(run.HeadParams(), run.TriggerPath(), true, run.headPov);
    MessagesMean(run.HeadParams(), run.TriggerPath(), false, run.patchPov);
  }

  // Base and head are worked on in their own fetched directories, with everything else as the run was given it.
  lemma DirectoriesOfStages(run: Run)
    requires run.tooling.Ok? && run.head.Ok? && run.base.Ok?
    ensures run.HeadParams() == Params(HeadRepoTest, run.head.value, run.tooling.value, run.params.sanitizer,
                                       run.params.architecture, run.params.engine, run.params.harness,
                                       run.params.projectName, run.params.focus, run.params.allowedLanguages)
    ensures run.BaseParams() == run.HeadParams().(resultContext := BaseRepoTest, repoDir := run.base.value)
  {
  }

  // The trigger is used where it was fetched to, and without one a patched program is not run again.
  lemma TriggerOfRun(run: Run)
    ensures run.triggerURL != "" && run.trigger.Ok? ==> run.TriggerPath() == run.trigger.value
    ensures run.triggerURL == "" ==> PovPatch !in Stages(run) && FetchTrigger !in Stages(run)
  {
    PlanIsExactly(run.Wants());
  }

  lemma FetchClassified(fetched: Result<string, ForeignError>)
    ensures Reported(FetchError(fetched)) == if fetched.Ok? then (Passed, false) else (Errored, false)
  {
    if fetched.Error? {
      ForeignHasNoStatus(fetched.error);
    }
  }

  lemma StageClassified(run: Run, stage: Stage)
    ensures StageError(run, stage).None? <==> StageClass(run, stage) == Good
    ensures Reported(StageError(run, stage)) == ClassReport(StageClass(run, stage))
  {
    match stage {
      case FetchTooling => FetchClassified(run.tooling);
      case FetchHead => FetchClassified(run.head);
      case CheckParams => CheckClassified(run.HeadParams(), run.check);
      case FetchTrigger => FetchClassified(run.trigger);
      case FetchBase => FetchClassified(run.base);
      case BuildBase => BuildClassified(run.BaseParams(), run.baseBuild, DEFAULT_MAX_RETRIES);
      case PovBase => PovClassified(run.BaseParams(), run.TriggerPath(), false, run.basePov);
      case BuildHead => BuildClassified(run.HeadParams(), run.headBuild, DEFAULT_MAX_RETRIES);
      case PovHead => PovClassified(run.HeadParams(), run.TriggerPath(), true, run.headPov);
      case FetchPatch => FetchClassified(run.patchFile);
      case PatchTree => PatchClassified(run.HeadParams(), run.patch, run.before, run.git);
      case BuildPatch => BuildClassified(run.HeadParams(), run.patchBuild, DEFAULT_MAX_RETRIES);
      case PovPatch => PovClassified(run.HeadParams(), run.TriggerPath(), false, run.patchPov);
      case TestPatch => RunTestsClassified(run.HeadParams(), run.tests);
    }
  }

  // Stage i of the plan is the first that is not good.
  predicate FirstNotGood(run: Run, i: nat) {
    && i < |Stages(run)|
    && StageClass(run, Stages(run)[i]) != Good
    && forall j :: 0 <= j < i ==> StageClass(run, Stages(run)[j]) == Good
  }

  // The stage that decides the evaluation.
  predicate Decides(run: Run, stage: Stage) {
    exists i | 0 <= i < |Stages(run)| :: FirstNotGood(run, i) && Stages(run)[i] == stage
  }

  predicate AllGood(run: Run) {
    forall stage :: stage in Stages(run) ==> StageClass(run, stage) == Good
  }

  lemma DecidedByOne(run: Run, a: Stage, b: Stage)
    requires Decides(run, a) && Decides(run, b)
    ensures a == b && !AllGood(run) && StageClass(run, a) != Good
  {
  }

  // The first stage that is not good decides what the evaluation reports; if there is none, it passes.
  lemma EvaluationMeaning(run: Run)
    ensures var err := Carry(Progress([], None), Stages(run), OutcomesOf(run)).err;
            || (AllGood(run) && err.None?)
            || (exists stage :: Decides(run, stage) && Reported(err) == ClassReport(StageClass(run, stage)))
  {
    var stages, outcomes := Stages(run), OutcomesOf(run);
    var p := Carry(Progress([], None), stages, outcomes);
    CarryMeaning([], stages, outcomes);
    if p.err.None? {
      forall stage | stage in stages
        ensures StageClass(run, stage) == Good
      {
        var i :| 0 <= i < |stages| && stages[i] == stage;
        assert outcomes(stages[i]).None?;
        StageClassified(run, stage);
      }
    } else {
      var i: nat :| FailsFirst(stages, outcomes, i) && outcomes(stages[i]) == p.err;
      StageClassified(run, stages[i]);
      forall j | 0 <= j < i
        ensures StageClass(run, stages[j]) == Good
      {
        StageClassified(run, stages[j]);
      }
      assert FirstNotGood(run, i);
      assert Decides(run, stages[i]);
    }
  }

  // A worker reports passed, failed, errored or inconclusive, and never accepted; a deadline that
  // has passed makes the report inconclusive whatever the evaluation returned.
  lemma ReportIsAVerdict(run: Run)
    ensures Report(run).0 in {Passed, Failed, Errored, Inconclusive}
    ensures Report(run).0 == Inconclusive <==> run.schedule != Finished(false)
  {
    EvaluationMeaning(run);
  }

  // `passed` is reported exactly when every stage of the plan was good before the deadline.
  lemma PassedMeans(run: Run)
    ensures Report(run).0 == Passed <==> run.schedule == Finished(false) && AllGood(run)
    ensures Report(run).0 == Passed ==> !Report(run).1
  {
    EvaluationMeaning(run);
    if stage :| Decides(run, stage) {
      DecidedByOne(run, stage, stage);
    }
  }

  // Every stage before this one was good.
  predicate Reached(run: Run, stage: Stage) {
    exists i | 0 <= i < |Stages(run)| ::
      Stages(run)[i] == stage && forall j :: 0 <= j < i ==> StageClass(run, Stages(run)[j]) == Good
  }

  // A build that was got to found its context dead before an attempt.
  predicate CutShort(run: Run, stage: Stage) {
    Reached(run, stage) &&
    match stage
    case BuildBase => !NeverCutShort(run.BaseParams(), run.baseBuild, DEFAULT_MAX_RETRIES)
    case BuildHead => !NeverCutShort(run.HeadParams(), run.headBuild, DEFAULT_MAX_RETRIES)
    case BuildPatch => !NeverCutShort(run.HeadParams(), run.patchBuild, DEFAULT_MAX_RETRIES)
    case _ => false
  }

  // The context ends only by its deadline and stays dead: a run in which a build found it dead does not
  // finish before the deadline.
  predicate Coherent(run: Run) {
    run.schedule == Finished(false) ==>
      !CutShort(run, BuildBase) && !CutShort(run, BuildHead) && !CutShort(run, BuildPatch)
  }

  // A build that was cut short is never held against the submission: the run is reported inconclusive.
  lemma CutShortIsInconclusive(run: Run, stage: Stage)
    requires Coherent(run) && CutShort(run, stage)
    ensures Report(run).0 == Inconclusive
  {
    ReportIsAVerdict(run);
  }

  // In particular if the context was dead before the first attempt, of which the build itself says `failed`.
  lemma DeadBuildIsInconclusive(run: Run)
    requires Coherent(run) && Reached(run, BuildPatch) && !run.patchBuild.Alive(0)
    ensures Reported(StageError(run, BuildPatch)) == (Failed, false)
    ensures Report(run).0 == Inconclusive
  {
    DeadContextReportsFailed(run.HeadParams(), run.patchBuild, DEFAULT_MAX_RETRIES);
    assert FailedBefore(run.HeadParams(), run.patchBuild, 0);
    CutShortIsInconclusive(run, BuildPatch);
  }

  // The build's first attempt was made and refused by the build script, and so was every later one.
  predicate BuildRefused(p: Params, env: BuildEnv) {
    env.Alive(0) && env.AttemptClass(p, 0) == Bad(false) && AllRefused(p, env, DEFAULT_MAX_RETRIES)
  }

  // `failed` has exactly these causes: a refuted parameter, a mismatch code from the program or
  // the tests, a patch at fault, or a patch build that was attempted and refused in every attempt. Base
  // and head builds are never among them.
  predicate CauseOfFailure(run: Run, stage: Stage) {
    match stage
    case CheckParams => ParameterRefuted(run.HeadParams(), run.check)
    case PovBase => PovClass(run.BaseParams(), run.TriggerPath(), false, run.basePov) == Bad(false)
    case PovHead => PovClass(run.HeadParams(), run.TriggerPath(), true, run.headPov) == Bad(false)
    case PatchTree => PatchAtFault(run.HeadParams(), run.patch, run.before, run.git)
    case BuildPatch => BuildRefused(run.HeadParams(), run.patchBuild)
    case PovPatch => PovClass(run.HeadParams(), run.TriggerPath(), false, run.patchPov) == Bad(false)
    case TestPatch => RunTestsClass(run.HeadParams(), run.tests) == Bad(true)
    case _ => false
  }

  lemma CauseIsBad(run: Run, stage: Stage)
    requires StageClass(run, stage) != Good
    ensures CauseOfFailure(run, stage) ==> StageClass(run, stage).Bad?
    ensures StageClass(run, stage).Bad? ==>
              CauseOfFailure(run, stage) || (stage == BuildPatch && !run.patchBuild.Alive(0))
    ensures StageClass(run, stage) == Bad(true) ==> stage == TestPatch
  {
    if stage == BuildPatch && run.patchBuild.Alive(0) && StageClass(run, stage).Bad? {
      RefusedBuildWasAttempted(run.HeadParams(), run.patchBuild, DEFAULT_MAX_RETRIES);
    }
  }

  // A deciding stage was reached; in time, if it is the patch build, its context was alive.
  lemma DeciderWasAlive(run: Run, stage: Stage)
    requires Decides(run, stage)
    ensures Reached(run, stage)
    ensures Coherent(run) && run.schedule == Finished(false) && stage == BuildPatch ==> run.patchBuild.Alive(0)
  {
    DeciderIsReached(run, stage);
    if stage == BuildPatch {
      assert FailedBefore(run.HeadParams(), run.patchBuild, 0);
    }
  }

  lemma DeciderIsReached(run: Run, stage: Stage)
    requires Decides(run, stage)
    ensures Reached(run, stage)
  {
    var i :| 0 <= i < |Stages(run)| && FirstNotGood(run, i) && Stages(run)[i] == stage;
  }

  // In time, the report is that of the deciding stage.
  lemma ReportOfDecider(run: Run, stage: Stage)
    requires run.schedule == Finished(false) && Decides(run, stage)
    ensures Report(run) == ClassReport(StageClass(run, stage))
  {
    EvaluationMeaning(run);
    DecidedByOne(run, stage, stage);
    var err := Carry(Progress([], None), Stages(run), OutcomesOf(run)).err;
    var other :| Decides(run, other) && Reported(err) == ClassReport(StageClass(run, other));
    DecidedByOne(run, stage, other);
  }

  // Without a deciding stage the evaluation passes or is late.
  lemma ReportWithoutDecider(run: Run)
    requires forall stage :: !Decides(run, stage)
    ensures Report(run).0 == Passed || Report(run).0 == Inconclusive
  {
    EvaluationMeaning(run);
    ReportIsAVerdict(run);
  }

  lemma FailedMeans(run: Run)
    requires Coherent(run)
    ensures Report(run).0 == Failed <==>
            run.schedule == Finished(false) && exists stage :: Decides(run, stage) && CauseOfFailure(run, stage)
  {
    ReportIsAVerdict(run);
    if run.schedule == Finished(false) {
      if decider :| Decides(run, decider) {
        ReportOfDecider(run, decider);
        DecidedByOne(run, decider, decider);
        CauseIsBad(run, decider);
        DeciderWasAlive(run, decider);
        forall stage | Decides(run, stage)
          ensures stage == decider
        {
          DecidedByOne(run, stage, decider);
        }
      } else {
        ReportWithoutDecider(run);
      }
    }
  }

  // The test flag together with `failed` means the functionality tests were reached and exited 202.
  lemma TestFlagMeans(run: Run)
    ensures Report(run) == (Failed, true) <==>
            && run.schedule == Finished(false) && Decides(run, TestPatch)
            && RunTestsClass(run.HeadParams(), run.tests) == Bad(true)
  {
    ReportIsAVerdict(run);
    if run.schedule == Finished(false) {
      if decider :| Decides(run, decider) {
        ReportOfDecider(run, decider);
        DecidedByOne(run, decider, decider);
        CauseIsBad(run, decider);
        if Decides(run, TestPatch) {
          DecidedByOne(run, TestPatch, decider);
        }
      } else {
        ReportWithoutDecider(run);
      }
    }
  }

  // The message of an inconclusive run may still carry the test flag.
  lemma LateRunMayCarryTheFlag(run: Run)
    requires run.schedule == Finished(true)
    ensures Report(run).1 <==> Report(run.(schedule := Finished(false))) == (Failed, true)
  {
    var early := run.(schedule := Finished(false));
    assert run.HeadParams() == early.HeadParams() && run.BaseParams() == early.BaseParams();
    assert run.Wants() == early.Wants();
    SameOutcomes(run, early, Progress([], None), Stages(run));
    EvaluationMeaning(early);
  }

  lemma {:induction false} SameOutcomes(run: Run, other: Run, p: Progress, plan: seq<Stage>)
    requires other == run.(schedule := other.schedule)
    ensures Carry(p, plan, OutcomesOf(run)) == Carry(p, plan, OutcomesOf(other))
    decreases |plan|
  {
    if plan != [] {
      assert run.HeadParams() == other.HeadParams() && run.BaseParams() == other.BaseParams();
      SameOutcomes(run, other, Step(p, plan[0], OutcomesOf(run)), plan[1..]);
    }
  }
}
