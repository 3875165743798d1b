// The evaluation engine: every operation classifies the exit code of one script.
module Engine {
  import opened Types
  import opened GoErrors

  datatype ResultContext = NoContext | HeadRepoTest | BaseRepoTest

  datatype Params = Params(
    resultContext: ResultContext,
    repoDir: string,
    fuzzToolingDir: string,
    sanitizer: string,
    architecture: string,
    engine: string,
    harness: string,
    projectName: string,
    focus: string,
    allowedLanguages: seq<string>)
  {
    function WithRepo(context: ResultContext, dir: string): Params {
      this.(resultContext := context, repoDir := dir)
    }

    function WithFuzzToolingDir(dir: string): Params {
      this.(fuzzToolingDir := dir)
    }
  }

  // One command execution: the command could not be run, or it exited.
  datatype Exec = ExecFailed(e: ForeignError) | Exited(code: int, stdout: string, stderr: string)

  const MISMATCH: int := 202  // exit code of a script whose expectation did not hold

  const MISSING_PARAMS: Err := Plain("missing call params")
  const BUILDING_FAILED: Err := Plain("building failed")
  const APT_UNREACHABLE: Err := Plain("failed to reach apt")
  const MAVEN_UNREACHABLE: Err := Plain("failed to reach maven")
  const BUILD_PROBLEM: Err := Plain("problem executing build")
  const UNEXPECTED_EXIT: Err := Plain("unexpected exit code")

  function Rejected(testsFailed: bool, cause: Option<Err>): Err {
    StatusError(Failed, testsFailed, cause)
  }

  predicate OccursAt(text: string, part: string, i: nat) {
    i + |part| <= |text| && text[i..i + |part|] == part
  }

  predicate Contains(text: string, part: string) {
    exists i | 0 <= i <= |text| :: OccursAt(text, part, i)
  }

  // How one stage of an evaluation went, read off exit codes and files rather than errors.
  datatype Class = Good | Bad(testsFailed: bool) | Broken

  function ClassReport(c: Class): (Status, bool) {
    match c
    case Good => (Passed, false)
    case Bad(testsFailed) => (Failed, testsFailed)
    case Broken => (Errored, false)
  }

  /* ---------------------------------------------------------------- Check */

  datatype ProjectYaml = ProjectYaml(language: string, sanitizers: seq<string>)

  datatype CheckEnv = CheckEnv(
    tooling: Option<ForeignError>,
    project: Result<ProjectYaml, ForeignError>,
    settings: Option<ForeignError>,
    harnesses: Result<seq<string>, ForeignError>)

  function Check(p: Params, env: CheckEnv): Option<Err> {
    if p.repoDir == "" || p.fuzzToolingDir == "" || p.focus == "" || p.projectName == "" then
      Some(Plain("missing source path information"))
    else if env.tooling.Some? then Some(env.tooling.value)
    else if p.architecture != "x86_64" then Some(Rejected(false, Some(Plain("invalid architecture"))))
    else if p.engine != "libfuzzer" then Some(Rejected(false, Some(Plain("invalid engine"))))
    else if env.project.Error? then Some(env.project.error)
    else if env.project.value.language == "jvm" && env.settings.Some? then Some(env.settings.value)
    else if p.sanitizer != "" && p.sanitizer !in env.project.value.sanitizers then
      Some(Rejected(false, Some(Plain("invalid sanitizer"))))
    else if env.harnesses.Error? then Some(env.harnesses.error)
    else if p.harness != "" && p.harness !in env.harnesses.value then
      Some(Rejected(false, Some(Plain("invalid harness"))))
    else None
  }

  predicate ProjectReadable(env: CheckEnv) {
    env.project.Ok? && (env.project.value.language == "jvm" ==> env.settings.None?)
  }

  predicate PathsGiven(p: Params) {
    p.repoDir != "" && p.fuzzToolingDir != "" && p.focus != "" && p.projectName != ""
  }

  predicate FixedChoicesValid(p: Params) { p.architecture == "x86_64" && p.engine == "libfuzzer" }

  predicate SanitizerListed(p: Params, env: CheckEnv)
    requires env.project.Ok?
  {
    p.sanitizer == "" || p.sanitizer in env.project.value.sanitizers
  }

  predicate HarnessListed(p: Params, env: CheckEnv)
    requires env.harnesses.Ok?
  {
    p.harness == "" || p.harness in env.harnesses.value
  }

  // A parameter is wrong and everything needed to see that could be read.
  predicate ParameterRefuted(p: Params, env: CheckEnv) {
    && PathsGiven(p) && env.tooling.None?
    && (FixedChoicesValid(p) ==>
          && ProjectReadable(env)
          && (SanitizerListed(p, env) ==> env.harnesses.Ok? && !HarnessListed(p, env)))
  }

  predicate ParametersConfirmed(p: Params, env: CheckEnv) {
    && PathsGiven(p) && env.tooling.None? && FixedChoicesValid(p)
    && ProjectReadable(env) && SanitizerListed(p, env)
    && env.harnesses.Ok? && HarnessListed(p, env)
  }

  function CheckClass(p: Params, env: CheckEnv): Class {
    if ParametersConfirmed(p, env) then Good
    else if ParameterRefuted(p, env) then Bad(false)
    else Broken
  }

  lemma CheckClassified(p: Params, env: CheckEnv)
    ensures Check(p, env).None? <==> CheckClass(p, env) == Good
    ensures Reported(Check(p, env)) == ClassReport(CheckClass(p, env))
  {
    if Check(p, env).Some? && Foreign(Check(p, env).value) {
      ForeignHasNoStatus(Check(p, env).value);
    }
  }

  /* ---------------------------------------------------------------- Build */

  function BuildOnce(p: Params, tooling: Option<ForeignError>, exec: Exec): Option<Err> {
    if p.architecture == "" || p.projectName == "" || p.repoDir == "" || p.fuzzToolingDir == "" || p.focus == "" then
      Some(MISSING_PARAMS)
    else if tooling.Some? then Some(tooling.value)
    else if exec.ExecFailed? then Some(exec.e)
    else if exec.code == MISMATCH then
      if Contains(exec.stderr, "Unable to fetch some archives") then Some(APT_UNREACHABLE)
      else if Contains(exec.stdout, "Could not transfer") then Some(MAVEN_UNREACHABLE)
      else Some(Rejected(false, Some(BUILDING_FAILED)))
    else if exec.code != 0 then Some(BUILD_PROBLEM)
    else None
  }

  predicate BuildCallable(p: Params, tooling: Option<ForeignError>) {
    && p.architecture != "" && p.projectName != "" && p.repoDir != ""
    && p.fuzzToolingDir != "" && p.focus != "" && tooling.None?
  }

  predicate NetworkExcuse(exec: Exec)
    requires exec.Exited?
  {
    Contains(exec.stderr, "Unable to fetch some archives") || Contains(exec.stdout, "Could not transfer")
  }

  function BuildOnceClass(p: Params, tooling: Option<ForeignError>, exec: Exec): Class {
    if !BuildCallable(p, tooling) || exec.ExecFailed? then Broken
    else if exec.code == 0 then Good
    else if exec.code == MISMATCH && !NetworkExcuse(exec) then Bad(false)
    else Broken
  }

  lemma BuildOnceClassified(p: Params, tooling: Option<ForeignError>, exec: Exec)
    ensures BuildOnce(p, tooling, exec).None? <==> BuildOnceClass(p, tooling, exec) == Good
    ensures Reported(BuildOnce(p, tooling, exec)) == ClassReport(BuildOnceClass(p, tooling, exec))
  {
    var r := BuildOnce(p, tooling, exec);
    if r.Some? && Foreign(r.value) {
      ForeignHasNoStatus(r.value);
    }
  }

  /* ------------------------------------------------------------- RunTests */

  function RunTests(p: Params, exec: Exec): Option<Err> {
    if p.projectName == "" || p.repoDir == "" || p.focus == "" then Some(MISSING_PARAMS)
    else if exec.ExecFailed? then Some(exec.e)
    else if exec.code == MISMATCH then Some(Rejected(true, None))
    else if exec.code != 0 then Some(UNEXPECTED_EXIT)
    else None
  }

  function RunTestsClass(p: Params, exec: Exec): Class {
    if p.projectName == "" || p.repoDir == "" || p.focus == "" || exec.ExecFailed? then Broken
    else if exec.code == 0 then Good
    else if exec.code == MISMATCH then Bad(true)
    else Broken
  }

  lemma RunTestsClassified(p: Params, exec: Exec)
    ensures RunTests(p, exec).None? <==> RunTestsClass(p, exec) == Good
    ensures Reported(RunTests(p, exec)) == ClassReport(RunTestsClass(p, exec))
  {
    var r := RunTests(p, exec);
    if r.Some? && Foreign(r.value) {
      ForeignHasNoStatus(r.value);
    }
  }

  /* ------------------------------------------------------- in plain terms */

  // Exactly which parameters are accepted, and which are held against the submission.
  lemma CheckMeans(p: Params, env: CheckEnv)
    ensures var given := |p.repoDir| > 0 && |p.fuzzToolingDir| > 0 && |p.focus| > 0 && |p.projectName| > 0;
            var readable := env.project.Ok? && (env.project.value.language == "jvm" ==> env.settings.None?);
            var sanitizer := env.project.Ok? && (|p.sanitizer| > 0 ==> p.sanitizer in env.project.value.sanitizers);
            var harness := env.harnesses.Ok? && (|p.harness| > 0 ==> p.harness in env.harnesses.value);
            var fixed := p.architecture == "x86_64" && p.engine == "libfuzzer";
            && (Check(p, env).None? <==> given && env.tooling.None? && fixed && readable && sanitizer && harness)
            && (Reported(Check(p, env)) == (Failed, false) <==>
                  && given && env.tooling.None?
                  && (!fixed || (readable && !sanitizer) || (readable && sanitizer && env.harnesses.Ok? && !harness)))
  {
    CheckClassified(p, env);
  }

  lemma ContainsMeans(before: string, part: string, after: string)
    ensures Contains(before + part + after, part)
  {
    assert OccursAt(before + part + after, part, |before|);
  }

  // A build that exits 202 is excused if its output tells of an archive or a dependency that was not reached.
  lemma NetworkIsExcused(p: Params, before: string, after: string, other: string)
    ensures Reported(BuildOnce(p, None, Exited(202, other, before + "Unable to fetch some archives" + after)))
         == (Errored, false)
    ensures Reported(BuildOnce(p, None, Exited(202, before + "Could not transfer" + after, other)))
         == (Errored, false)
  {
    ContainsMeans(before, "Unable to fetch some archives", after);
    ContainsMeans(before, "Could not transfer", after);
  }

  // Without a parameter it needs, an operation does nothing and the server is to blame.
  lemma BuildNeeds(p: Params, tooling: Option<ForeignError>, exec: Exec)
    requires p.architecture == "" || p.projectName == "" || p.repoDir == "" || p.fuzzToolingDir == "" || p.focus == ""
    ensures Reported(BuildOnce(p, tooling, exec)) == (Errored, false)
  {
  }

  lemma TestsNeed(p: Params, exec: Exec)
    ensures p.projectName == "" || p.repoDir == "" || p.focus == "" ==> Reported(RunTests(p, exec)) == (Errored, false)
    ensures p.projectName != "" && p.repoDir != "" && p.focus != "" ==>
              && (Reported(RunTests(p, exec)) == (Failed, true) <==> exec.Exited? && exec.code == 202)
              && (RunTests(p, exec).None? <==> exec.Exited? && exec.code == 0)
  {
    RunTestsClassified(p, exec);
  }
}
