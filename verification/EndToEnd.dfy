// From the stored row back to the worker run that earned it.
module EndToEnd {
  import opened Types
  import opened Engine
  import opened ApplyPatch
  import opened BuildRetry
  import opened RunPov
  import opened Pipeline
  import opened Results
  import opened Protocol
  import opened Safety
  import Evaluate

  type Run = Evaluate.Run

  /* ------------------------------------------------- who a worker reports for */

  // The identifier flags of the worker command; None is the empty string.
  datatype Flags = Flags(jobID: Option<EntityId>, povID: Option<EntityId>, patchID: Option<EntityId>)

  // A later flag overrides the earlier ones.
  function Identity(flags: Flags): (JobType, EntityId) {
    if flags.patchID.Some? then (PatchJob, flags.patchID.value)
    else if flags.povID.Some? then (PovJob, flags.povID.value)
    else if flags.jobID.Some? then (GenericJob, flags.jobID.value)
    else (Unknown, Malformed)
  }

  method SelectEntity(flags: Flags) returns (entity: JobType, entityID: EntityId)
    ensures (entity, entityID) == Identity(flags)
  {
    entity, entityID := Unknown, Malformed;
    if flags.jobID.Some? {
      entity, entityID := GenericJob, flags.jobID.value;
    }
    if flags.povID.Some? {
      entity, entityID := PovJob, flags.povID.value;
    }
    if flags.patchID.Some? {
      entity, entityID := PatchJob, flags.patchID.value;
    }
  }

  // The flags the job of a submission is created with.
  function FlagsFor(key: Key): Flags
    requires Audited(key)
  {
    if key.kind.PovJob? then Flags(None, Some(Id(key.uuid)), None) else Flags(None, None, Some(Id(key.uuid)))
  }

  // What the job of a submission asks of its worker, and that the worker's context ends only by its deadline.
  predicate EvaluatesRow(key: Key, run: Run) {
    Evaluate.Coherent(run) &&
    if key.kind.PovJob? then run.triggerURL != "" && run.patchURL == ""
    else run.triggerURL == "" && run.baseURL == "" && run.patchURL != "" && !run.skipPatchTests
  }

  function NoteOf(key: Key, run: Run): Note {
    var (status, testsFailed) := Evaluate.Report(run);
    Note(key, status, testsFailed)
  }

  // The message a worker of the row's job sends carries the row's own identity and the verdict.
  lemma MessageIsTheWorkers(key: Key, run: Run)
    requires Audited(key)
    ensures var (entity, entityID) := Identity(FlagsFor(key));
            var (status, testsFailed) := Evaluate.Report(run);
            MessageOf(NoteOf(key, run)) == FinalMsg(entity, entityID, status, testsFailed)
    ensures NoteOf(key, run).status in VERDICTS
  {
    Evaluate.ReportIsAVerdict(run);
  }

  /* --------------------------------------------------------------- whole runs */

  // Every message put on the queue is the report of a worker run; runs[i] is that of action i.
  ghost predicate Honest(actions: seq<Action>, runs: seq<Run>) {
    && |runs| == |actions|
    && forall i :: 0 <= i < |actions| && actions[i].Enqueue? ==>
         EvaluatesRow(actions[i].note.key, runs[i]) && actions[i].note == NoteOf(actions[i].note.key, runs[i])
  }

  ghost predicate SentAt(actions: seq<Action>, i: nat, id: nat, note: Note) {
    i < |actions| && actions[i].Enqueue? && actions[i].id == id && actions[i].note == note
  }

  lemma {:induction false} MessagesComeFromWorkers(s: State, actions: seq<Action>, s': State, id: nat)
    requires Leads(s, actions, s') && id !in s.sent && id in s'.sent
    ensures exists i: nat :: SentAt(actions, i, id, s'.sent[id])
    decreases |actions|
  {
    if actions != [] {
      var next := Apply(s, actions[0]);
      if id in next.sent {
        SentStays(next, actions[1..], s', id);
        assert SentAt(actions, 0, id, s'.sent[id]);
      } else {
        MessagesComeFromWorkers(next, actions[1..], s', id);
        var i: nat :| SentAt(actions[1..], i, id, s'.sent[id]);
        assert SentAt(actions, i + 1, id, s'.sent[id]);
      }
    }
  }

  lemma {:induction false} SentStays(s: State, actions: seq<Action>, s': State, id: nat)
    requires Leads(s, actions, s') && id in s.sent
    ensures id in s'.sent && s'.sent[id] == s.sent[id]
    decreases |actions|
  {
    if actions != [] {
      SentStays(Apply(s, actions[0]), actions[1..], s', id);
    }
  }

  // A row settled by a message was settled by the report of a worker run for that row.
  lemma SettledByRun(actions: seq<Action>, runs: seq<Run>, s: State, key: Key) returns (run: Run)
    requires Leads(START, actions, s) && Honest(actions, runs)
    requires key in s.db.rows && key in s.settledBy && s.settledBy[key].ByMessage?
    ensures run in runs && EvaluatesRow(key, run)
    ensures s.db.rows[key].status == Evaluate.Report(run).0
    ensures key.kind.PovJob? ==> s.db.rows[key].testsPassing == None
    ensures key.kind.PatchJob? ==>
              s.db.rows[key].testsPassing == Some(Evaluate.Report(run) != (Failed, true))
  {
    assert Reachable(s);
    SettledRows(s, key);
    ReachableInv(s);
    assert RowExplained(s, key);
    var id := s.settledBy[key].id;
    MessagesComeFromWorkers(START, actions, s, id);
    var i: nat :| SentAt(actions, i, id, s.sent[id]);
    run := runs[i];
  }

  // A submission stored as passed was earned: one of its own runs had every stage good before
  // the deadline.
  lemma PassedWasEarned(actions: seq<Action>, runs: seq<Run>, s: State, key: Key)
    requires Leads(START, actions, s) && Honest(actions, runs)
    requires key in s.db.rows && s.db.rows[key].status == Passed
    ensures exists run :: run in runs && EvaluatesRow(key, run) &&
                          run.schedule == Finished(false) && Evaluate.AllGood(run)
  {
    assert Reachable(s);
    SettledRows(s, key);
    var run := SettledByRun(actions, runs, s, key);
    Evaluate.PassedMeans(run);
  }

  // A submission stored as failed was refuted by the deciding stage of one of its own runs.
  lemma FailedWasCaused(actions: seq<Action>, runs: seq<Run>, s: State, key: Key)
    requires Leads(START, actions, s) && Honest(actions, runs)
    requires key in s.db.rows && s.db.rows[key].status == Failed
    ensures exists run, stage :: run in runs && EvaluatesRow(key, run) && run.schedule == Finished(false) &&
                                 Evaluate.Decides(run, stage) && Evaluate.CauseOfFailure(run, stage)
  {
    assert Reachable(s);
    SettledRows(s, key);
    var run := SettledByRun(actions, runs, s, key);
    Evaluate.FailedMeans(run);
    var stage :| Evaluate.Decides(run, stage) && Evaluate.CauseOfFailure(run, stage);
  }

  // The tests-passing column of a patch: null until settled and when the controller settled it;
  // otherwise false exactly when the run that settled it got to the tests and they exited 202.
  lemma TestsColumn(actions: seq<Action>, runs: seq<Run>, s: State, key: Key) returns (run: Option<Run>)
    requires Leads(START, actions, s) && Honest(actions, runs)
    requires key in s.db.rows && key.kind.PatchJob?
    ensures run.Some? <==> key in s.settledBy && s.settledBy[key].ByMessage?
    ensures run.None? ==>
              && s.db.rows[key].testsPassing == None
              && s.db.rows[key].status in {Accepted, DeadlineExceeded, Errored}
    ensures run.Some? ==>
              && run.value in runs && EvaluatesRow(key, run.value)
              && s.db.rows[key].testsPassing ==
                 Some(!(&& run.value.schedule == Finished(false) && Evaluate.Decides(run.value, TestPatch)
                        && RunTestsClass(run.value.HeadParams(), run.value.tests) == Bad(true)))
              && (s.db.rows[key].testsPassing == Some(false) ==> s.db.rows[key].status == Failed)
  {
    assert Reachable(s);
    SettledRows(s, key);
    if key in s.settledBy && s.settledBy[key].ByMessage? {
      var r := SettledByRun(actions, runs, s, key);
      Evaluate.TestFlagMeans(r);
      run := Some(r);
    } else {
      run := None;
    }
  }

  /* ------------------------------------------------- what passing took */

  lemma GoodPatchTree(run: Run)
    requires Evaluate.StageClass(run, PatchTree) == Good
    ensures PatchApplies(run.HeadParams(), run.patch, run.before, run.git)
  {
  }

  lemma GoodPatchBuild(run: Run)
    requires Evaluate.StageClass(run, BuildPatch) == Good
    ensures Succeeds(run.HeadParams(), run.patchBuild, DEFAULT_MAX_RETRIES)
  {
  }

  lemma GoodPatchTests(run: Run)
    requires Evaluate.StageClass(run, TestPatch) == Good
    ensures run.tests.Exited? && run.tests.code == 0
  {
  }

  // A good run of a patch: it applies, one of at most four builds succeeds and its tests exit 0.
  lemma GoodPatchRun(key: Key, run: Run)
    requires key.kind.PatchJob? && EvaluatesRow(key, run) && Evaluate.AllGood(run)
    ensures PatchApplies(run.HeadParams(), run.patch, run.before, run.git)
    ensures Succeeds(run.HeadParams(), run.patchBuild, DEFAULT_MAX_RETRIES)
    ensures run.tests.Exited? && run.tests.code == 0
  {
    PlanIncludes(run.Wants());
    GoodPatchTree(run);
    GoodPatchBuild(run);
    GoodPatchTests(run);
  }

  // A good run with a trigger and a patch: the patched program was executed three times on the trigger, never
  // crashed, and exited 0 the third time. Any run with a patch had it applied and built.
  lemma GoodRetest(run: Run)
    requires Evaluate.AllGood(run) && run.patchURL != ""
    ensures PatchApplies(run.HeadParams(), run.patch, run.before, run.git)
    ensures Succeeds(run.HeadParams(), run.patchBuild, DEFAULT_MAX_RETRIES)
    ensures run.TriggerPath() != "" ==>
              && run.patchPov.Run(2).Exited? && run.patchPov.Run(2).code == 0
              && forall i :: 0 <= i < 3 ==> run.patchPov.Run(i).Exited? && run.patchPov.Run(i).code != 202
    ensures !run.skipPatchTests ==> run.tests.Exited? && run.tests.code == 0
  {
    PlanIsExactly(run.Wants());
    GoodPatchTree(run);
    GoodPatchBuild(run);
    if run.TriggerPath() != "" {
      GoodPatchPov(run);
    }
    if !run.skipPatchTests {
      GoodPatchTests(run);
    }
  }

  lemma GoodPatchPov(run: Run)
    requires Evaluate.StageClass(run, PovPatch) == Good
    ensures run.patchPov.Run(2).Exited? && run.patchPov.Run(2).code == 0
    ensures forall i :: 0 <= i < 3 ==> run.patchPov.Run(i).Exited? && run.patchPov.Run(i).code != 202
  {
    NoCrashWanted(run.HeadParams(), run.TriggerPath(), run.patchPov);
  }

  // A patched program that crashes on the trigger is reported failed, if all before went well and in time.
  lemma CrashAfterPatchFails(run: Run)
    requires run.schedule == Finished(false) && run.patchURL != "" && run.TriggerPath() != ""
    requires Evaluate.Reached(run, PovPatch)
    requires PovClass(run.HeadParams(), run.TriggerPath(), false, run.patchPov) == Bad(false)
    ensures Evaluate.Report(run) == (Failed, false)
  {
    var stages := Evaluate.Stages(run);
    var i :| 0 <= i < |stages| && stages[i] == PovPatch
             && forall j :: 0 <= j < i ==> Evaluate.StageClass(run, stages[j]) == Good;
    assert Evaluate.FirstNotGood(run, i);
    Evaluate.ReportOfDecider(run, PovPatch);
  }

  lemma GoodHeadPov(run: Run)
    requires Evaluate.StageClass(run, PovHead) == Good
    ensures run.headPov.Run(0).Exited? && run.headPov.Run(0).code == 0
  {
    CrashWanted(run.HeadParams(), run.TriggerPath(), run.headPov);
  }

  lemma GoodBasePov(run: Run)
    requires Evaluate.StageClass(run, PovBase) == Good
    ensures run.basePov.Run(2).Exited? && run.basePov.Run(2).code == 0
    ensures forall i :: 0 <= i < 3 ==> run.basePov.Run(i).Exited? && run.basePov.Run(i).code != 202
  {
    NoCrashWanted(run.BaseParams(), run.TriggerPath(), run.basePov);
  }

  // A good run of a proof of vulnerability: the head crashes as wanted in its one execution, and
  // a base, when there is one, is executed three times, never crashes and exits 0 the third time.
  lemma GoodPovRun(key: Key, run: Run)
    requires key.kind.PovJob? && EvaluatesRow(key, run) && Evaluate.AllGood(run)
    ensures run.headPov.Run(0).Exited? && run.headPov.Run(0).code == 0
    ensures run.baseURL != "" ==>
              && run.basePov.Run(2).Exited? && run.basePov.Run(2).code == 0
              && forall i :: 0 <= i < 3 ==> run.basePov.Run(i).Exited? && run.basePov.Run(i).code != 202
  {
    PlanIncludes(run.Wants());
    GoodHeadPov(run);
    if run.baseURL != "" {
      GoodBasePov(run);
    }
  }
}
