// Running a proof of vulnerability: up to three executions, then the uploads and queue messages.
module RunPov {
  import opened Types
  import opened GoErrors
  import opened Engine

  // An enqueue that is reported as failed may still have put the message on the queue.
  datatype Enqueue = Queued | QueueFailed(landed: bool, e: ForeignError)

  datatype FuzzOut =
    | NoFile
    | StatFailed(e: ForeignError)
    | OpenFailed(e: ForeignError)
    | UploadFailed(e: ForeignError)
    | Uploaded(name: string, queued: Enqueue)

  datatype PovEnv = PovEnv(
    tooling: Option<ForeignError>,
    execs: seq<Exec>,
    stdoutUpload: Result<string, ForeignError>,
    stderrUpload: Result<string, ForeignError>,
    resultQueued: Enqueue,
    fuzzOut: FuzzOut)
  {
    // Once the scripted executions are used up, the context has expired.
    function Run(i: nat): Exec {
      if i < |execs| then execs[i] else ExecFailed(Plain("context deadline exceeded"))
    }
  }

  datatype WorkerMsg =
    | CommandResult(stdoutName: string, stderrName: string, exitCode: int, context: ResultContext)
    | Artifact(name: string, context: ResultContext, forBase: bool)

  predicate PovParamsGiven(p: Params, trigger: string) {
    && p.architecture != "" && p.projectName != "" && p.fuzzToolingDir != "" && p.harness != ""
    && p.engine != "" && p.sanitizer != "" && trigger != "" && !p.resultContext.NoContext?
  }

  function LoopCount(crashExpected: bool): nat { if crashExpected then 1 else 3 }

  // Execution i ends the loop: it could not be run, or a patched or base program crashed.
  predicate Stops(env: PovEnv, crashExpected: bool, i: nat) {
    env.Run(i).ExecFailed? || (!crashExpected && env.Run(i).code == MISMATCH)
  }

  function RunsFrom(env: PovEnv, crashExpected: bool, i: nat): (n: nat)
    requires i < LoopCount(crashExpected)
    ensures i < n <= LoopCount(crashExpected)
    ensures forall j :: i <= j < n - 1 ==> !Stops(env, crashExpected, j)
    ensures n < LoopCount(crashExpected) ==> Stops(env, crashExpected, n - 1)
    decreases LoopCount(crashExpected) - i
  {
    if Stops(env, crashExpected, i) || i + 1 == LoopCount(crashExpected) then i + 1
    else RunsFrom(env, crashExpected, i + 1)
  }

  // How many times the program is executed.
  function Runs(env: PovEnv, crashExpected: bool): nat {
    RunsFrom(env, crashExpected, 0)
  }

  function FuzzOutError(f: FuzzOut): Option<Err> {
    match f
    case NoFile => None
    case StatFailed(e) => Some(e)
    case OpenFailed(e) => Some(e)
    case UploadFailed(e) => Some(e)
    case Uploaded(_, queued) => if queued.QueueFailed? then Some(queued.e) else None
  }

  function ExitOutcome(code: int): Option<Err> {
    if code == 0 then None
    else if code == MISMATCH then Some(Rejected(false, None))
    else Some(UNEXPECTED_EXIT)
  }

  function PovOutcome(p: Params, trigger: string, crashExpected: bool, env: PovEnv): Option<Err> {
    if !PovParamsGiven(p, trigger) then Some(MISSING_PARAMS)
    else if env.tooling.Some? then Some(env.tooling.value)
    else
      var last := env.Run(Runs(env, crashExpected) - 1);
      if last.ExecFailed? then Some(last.e)
      else if env.stdoutUpload.Error? then Some(env.stdoutUpload.error)
      else if env.stderrUpload.Error? then Some(env.stderrUpload.error)
      else if env.resultQueued.QueueFailed? then Some(env.resultQueued.e)
      else if FuzzOutError(env.fuzzOut).Some? then FuzzOutError(env.fuzzOut)
      else ExitOutcome(last.code)
  }

  predicate Landed(q: Enqueue) { q.Queued? || q.landed }

  // The messages that reach the queue.
  function PovMessages(p: Params, trigger: string, crashExpected: bool, env: PovEnv): seq<WorkerMsg> {
    if !PovParamsGiven(p, trigger) || env.tooling.Some? then []
    else
      var last := env.Run(Runs(env, crashExpected) - 1);
      if last.ExecFailed? || env.stdoutUpload.Error? || env.stderrUpload.Error? then []
      else
        var report := CommandResult(env.stdoutUpload.value, env.stderrUpload.value, last.code, p.resultContext);
        (if Landed(env.resultQueued) then [report] else []) +
        (if env.resultQueued.Queued? && env.fuzzOut.Uploaded? && Landed(env.fuzzOut.queued)
         then [Artifact(env.fuzzOut.name, p.resultContext, p.resultContext.BaseRepoTest?)] else [])
  }

  class Runner {
    var executions: nat       // commands started
    var queue: seq<WorkerMsg>

    constructor ()
      ensures executions == 0 && queue == []
    {
      executions := 0;
      queue := [];
    }

    method Enqueue(m: WorkerMsg, outcome: Enqueue) returns (err: Option<Err>)
      modifies this`queue
      ensures queue == if Landed(outcome) then old(queue) + [m] else old(queue)
      ensures err == if outcome.Queued? then None else Some(outcome.e)
    {
      if Landed(outcome) {
        queue := queue + [m];
      }
      err := if outcome.Queued? then None else Some(outcome.e);
    }

    method RunPov(p: Params, trigger: string, crashExpected: bool, env: PovEnv) returns (err: Option<Err>)
      modifies this
      ensures err == PovOutcome(p, trigger, crashExpected, env)
      ensures executions == old(executions) +
                            if PovParamsGiven(p, trigger) && env.tooling.None? then Runs(env, crashExpected) else 0
      ensures queue == old(queue) + PovMessages(p, trigger, crashExpected, env)
    {
      if !PovParamsGiven(p, trigger) {
        return Some(MISSING_PARAMS);
      }
      if env.tooling.Some? {
        return Some(env.tooling.value);
      }
      var loopCount := LoopCount(crashExpected);
      var result := Exited(0, "", "");
      var i := 0;
      while i < loopCount
        invariant 0 <= i <= loopCount
        invariant executions == old(executions) + i && queue == old(queue)
        invariant i < loopCount ==> Runs(env, crashExpected) == RunsFrom(env, crashExpected, i)
        invariant i > 0 ==> result == env.Run(i - 1) && result.Exited?
        invariant i == loopCount ==> Runs(env, crashExpected) == i
      {
        result := env.Run(i);
        executions := executions + 1;
        i := i + 1;
        if result.ExecFailed? {
          return Some(result.e);
        }
        if !crashExpected && result.code == MISMATCH {
          break;
        }
      }
      if env.stdoutUpload.Error? {
        return Some(env.stdoutUpload.error);
      }
      if env.stderrUpload.Error? {
        return Some(env.stderrUpload.error);
      }
      err := Enqueue(CommandResult(env.stdoutUpload.value, env.stderrUpload.value, result.code, p.resultContext),
                     env.resultQueued);
      if err.Some? {
        return;
      }
      match env.fuzzOut {
        case NoFile =>
        case StatFailed(e) => return Some(e);
        case OpenFailed(e) => return Some(e);
        case UploadFailed(e) => return Some(e);
        case Uploaded(name, queued) =>
          err := Enqueue(Artifact(name, p.resultContext, p.resultContext.BaseRepoTest?), queued);
          if err.Some? {
            return;
          }
      }
      err := ExitOutcome(result.code);
    }
  }

  // Nothing outside the executed program went wrong.
  predicate Clean(p: Params, trigger: string, crashExpected: bool, env: PovEnv) {
    && PovParamsGiven(p, trigger) && env.tooling.None?
    && env.Run(Runs(env, crashExpected) - 1).Exited?
    && env.stdoutUpload.Ok? && env.stderrUpload.Ok? && env.resultQueued.Queued?
    && FuzzOutError(env.fuzzOut).None?
  }

  function PovClass(p: Params, trigger: string, crashExpected: bool, env: PovEnv): Class {
    if !Clean(p, trigger, crashExpected, env) then Broken
    else
      var code := env.Run(Runs(env, crashExpected) - 1).code;
      if code == 0 then Good else if code == MISMATCH then Bad(false) else Broken
  }

  // What goes wrong outside the program has no status of its own.
  lemma UncleanHasNoStatus(p: Params, trigger: string, crashExpected: bool, env: PovEnv)
    requires !Clean(p, trigger, crashExpected, env)
    ensures var r := PovOutcome(p, trigger, crashExpected, env);
            r.Some? && (r.value == MISSING_PARAMS || Foreign(r.value))
  {
  }

  lemma PovClassified(p: Params, trigger: string, crashExpected: bool, env: PovEnv)
    ensures PovOutcome(p, trigger, crashExpected, env).None? <==> PovClass(p, trigger, crashExpected, env) == Good
    ensures Reported(PovOutcome(p, trigger, crashExpected, env))
         == ClassReport(PovClass(p, trigger, crashExpected, env))
  {
    if !Clean(p, trigger, crashExpected, env) {
      UncleanHasNoStatus(p, trigger, crashExpected, env);
      var err := PovOutcome(p, trigger, crashExpected, env).value;
      if Foreign(err) {
        ForeignHasNoStatus(err);
      }
    }
  }

  // When no crash is wanted, one crash in up to three executions refutes, and three runs
  // without a crash are needed, the last of them exiting 0.
  lemma NoCrashWanted(p: Params, trigger: string, env: PovEnv)
    requires Clean(p, trigger, false, env)
    ensures PovClass(p, trigger, false, env) == Bad(false) <==>
            exists i :: 0 <= i < Runs(env, false) && env.Run(i).Exited? && env.Run(i).code == MISMATCH
    ensures PovClass(p, trigger, false, env) == Good <==>
            Runs(env, false) == 3 && env.Run(2).code == 0
    ensures forall i :: 0 <= i < Runs(env, false) - 1 ==> env.Run(i).Exited? && env.Run(i).code != MISMATCH
  {
    var n := Runs(env, false);
    forall i | 0 <= i < n - 1
      ensures env.Run(i).Exited? && env.Run(i).code != MISMATCH
    {
      assert !Stops(env, false, i);
    }
    if n < 3 {
      assert Stops(env, false, n - 1);
    }
  }

  // When a crash is wanted there is exactly one execution and its exit code decides.
  lemma CrashWanted(p: Params, trigger: string, env: PovEnv)
    requires Clean(p, trigger, true, env)
    ensures Runs(env, true) == 1
    ensures PovClass(p, trigger, true, env) == Good <==> env.Run(0).code == 0
    ensures PovClass(p, trigger, true, env) == Bad(false) <==> env.Run(0).code == MISMATCH
  {
  }

  // Without upload, queue or file errors, one command result is queued, for the last execution.
  lemma OneCommandResult(p: Params, trigger: string, crashExpected: bool, env: PovEnv)
    requires Clean(p, trigger, crashExpected, env)
    ensures var msgs := PovMessages(p, trigger, crashExpected, env);
            && |msgs| == 1 + (if env.fuzzOut.NoFile? then 0 else 1)
            && msgs[0] == CommandResult(env.stdoutUpload.value, env.stderrUpload.value,
                                        env.Run(Runs(env, crashExpected) - 1).code, p.resultContext)
            && forall i :: 1 <= i < |msgs| ==> msgs[i].Artifact?
  {
  }

  // The last execution was made and exited, and its output was uploaded.
  predicate HasResult(p: Params, trigger: string, crashExpected: bool, env: PovEnv) {
    && PovParamsGiven(p, trigger) && env.tooling.None? && env.Run(Runs(env, crashExpected) - 1).Exited?
    && env.stdoutUpload.Ok? && env.stderrUpload.Ok?
  }

  // What reaches the queue in every environment: the result with the last exit code and the names of its output,
  // then, once that is confirmed, the uploaded fuzzer output under its name; all with the context of the run,
  // which also says whether the output is the base's.
  lemma MessagesMean(p: Params, trigger: string, crashExpected: bool, env: PovEnv)
    ensures var msgs := PovMessages(p, trigger, crashExpected, env);
            && (forall m :: m in msgs ==> m.context == p.resultContext)
            && (forall m :: m in msgs && m.CommandResult? <==>
                  && HasResult(p, trigger, crashExpected, env)
                  && (env.resultQueued.Queued? || env.resultQueued.landed)
                  && m == CommandResult(env.stdoutUpload.value, env.stderrUpload.value,
                                        env.Run(Runs(env, crashExpected) - 1).code, p.resultContext))
            && (forall m :: m in msgs && m.Artifact? <==>
                  && HasResult(p, trigger, crashExpected, env) && env.resultQueued.Queued? && env.fuzzOut.Uploaded?
                  && (env.fuzzOut.queued.Queued? || env.fuzzOut.queued.landed)
                  && m == Artifact(env.fuzzOut.name, p.resultContext, p.resultContext == BaseRepoTest))
            && |msgs| <= 2
  {
  }

  // Exactly what a run needs; without it nothing is executed or sent, and the server is to blame.
  lemma PovNeeds(p: Params, trigger: string, crashExpected: bool, env: PovEnv)
    ensures PovParamsGiven(p, trigger) <==>
              && |p.architecture| > 0 && |p.projectName| > 0 && |p.fuzzToolingDir| > 0 && |p.harness| > 0
              && |p.engine| > 0 && |p.sanitizer| > 0 && |trigger| > 0 && p.resultContext != NoContext
    ensures !PovParamsGiven(p, trigger) ==>
              PovMessages(p, trigger, crashExpected, env) == []
              && Reported(PovOutcome(p, trigger, crashExpected, env)) == (Errored, false)
  {
  }
}
