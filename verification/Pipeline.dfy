// The order in which a worker runs its stages, for any engine, and the race with the deadline.
module Pipeline {
  import opened Types
  import opened GoErrors
  import opened RunPov

  datatype Stage =
    | FetchTooling | FetchHead | CheckParams | FetchTrigger
    | FetchBase | BuildBase | PovBase
    | BuildHead | PovHead
    | FetchPatch | PatchTree | BuildPatch | PovPatch | TestPatch

  // What was asked for. URLs, and the path of the fetched trigger, are "" when absent.
  datatype Request = Request(
    baseURL: string, triggerURL: string, triggerPath: string, patchURL: string, skipPatchTests: bool)

  // Which branch of the select is taken: the context's, or the evaluation's, with the deadline
  // already passed by then or not. The context ends only by its deadline.
  datatype Schedule = TimedOut | Finished(late: bool)

  // The engine and the fetcher, seen as what each stage returns.
  type Outcomes = Stage -> Option<Err>

  // The stages a request needs, in order.
  function Plan(req: Request): seq<Stage> {
    [FetchTooling] + ([FetchHead] + ([CheckParams] + (TriggerPlan(req) + PatchPlan(req))))
  }

  function TriggerPlan(req: Request): seq<Stage> {
    if req.triggerURL == "" then [] else [FetchTrigger] + (if req.patchURL == "" then CrashPlan(req) else [])
  }

  function CrashPlan(req: Request): seq<Stage> {
    BasePlan(req) + PovPlan(BuildHead, PovHead)
  }

  function BasePlan(req: Request): seq<Stage> {
    if req.baseURL == "" then [] else [FetchBase] + PovPlan(BuildBase, PovBase)
  }

  function PovPlan(build: Stage, pov: Stage): seq<Stage> { [build] + [pov] }

  function PatchPlan(req: Request): seq<Stage> {
    if req.patchURL == "" then []
    else [FetchPatch] + ([PatchTree] + ([BuildPatch] + (RetestPlan(req) + TestPlan(req))))
  }

  function RetestPlan(req: Request): seq<Stage> { if req.triggerPath == "" then [] else [PovPatch] }

  function TestPlan(req: Request): seq<Stage> { if req.skipPatchTests then [] else [TestPatch] }

  // Whether a request wants a stage: the tooling, the head and the parameters always; what a trigger and a base
  // need only without a patch; with a patch the retest if there is a trigger, and the tests unless skipped.
  predicate Wanted(req: Request, stage: Stage) {
    match stage
    case FetchTooling => true
    case FetchHead => true
    case CheckParams => true
    case FetchTrigger => req.triggerURL != ""
    case FetchBase => req.triggerURL != "" && req.patchURL == "" && req.baseURL != ""
    case BuildBase => req.triggerURL != "" && req.patchURL == "" && req.baseURL != ""
    case PovBase => req.triggerURL != "" && req.patchURL == "" && req.baseURL != ""
    case BuildHead => req.triggerURL != "" && req.patchURL == ""
    case PovHead => req.triggerURL != "" && req.patchURL == ""
    case FetchPatch => req.patchURL != ""
    case PatchTree => req.patchURL != ""
    case BuildPatch => req.patchURL != ""
    case PovPatch => req.patchURL != "" && req.triggerPath != ""
    case TestPatch => req.patchURL != "" && !req.skipPatchTests
  }

  // The place of a stage in the one order all plans follow.
  function Place(stage: Stage): nat {
    match stage
    case FetchTooling => 0
    case FetchHead => 1
    case CheckParams => 2
    case FetchTrigger => 3
    case FetchBase => 4
    case BuildBase => 5
    case PovBase => 6
    case BuildHead => 7
    case PovHead => 8
    case FetchPatch => 9
    case PatchTree => 10
    case BuildPatch => 11
    case PovPatch => 12
    case TestPatch => 13
  }

  predicate InOrder(plan: seq<Stage>) { forall i, j :: 0 <= i < j < |plan| ==> Place(plan[i]) < Place(plan[j]) }

  predicate Within(plan: seq<Stage>, low: nat, high: nat) {
    forall i :: 0 <= i < |plan| ==> low <= Place(plan[i]) < high
  }

  lemma OrderJoins(a: seq<Stage>, b: seq<Stage>, low: nat, mid: nat, high: nat)
    requires InOrder(a) && InOrder(b) && Within(a, low, mid) && Within(b, mid, high) && low <= mid <= high
    ensures InOrder(a + b) && Within(a + b, low, high)
    ensures forall stage :: stage in a + b <==> stage in a || stage in b
  {
  }

  lemma CrashPlanIs(req: Request)
    ensures var plan := CrashPlan(req);
            && InOrder(plan) && Within(plan, 4, 9)
            && forall stage :: stage in plan <==>
                 stage in {BuildHead, PovHead} || (req.baseURL != "" && stage in {FetchBase, BuildBase, PovBase})
  {
    var head := PovPlan(BuildHead, PovHead);
    assert head[0] == BuildHead && head[1] == PovHead;
    if req.baseURL != "" {
      var base := BasePlan(req);
      assert base == [FetchBase, BuildBase, PovBase];
      assert base[0] == FetchBase && base[1] == BuildBase && base[2] == PovBase;
    }
    OrderJoins(BasePlan(req), head, 4, 7, 9);
  }

  lemma TriggerPlanIs(req: Request)
    ensures var plan := TriggerPlan(req);
            && InOrder(plan) && Within(plan, 3, 9)
            && forall stage :: stage in plan <==> 3 <= Place(stage) < 9 && Wanted(req, stage)
  {
    if req.triggerURL != "" {
      CrashPlanIs(req);
      OrderJoins([FetchTrigger], if req.patchURL == "" then CrashPlan(req) else [], 3, 4, 9);
    }
  }

  lemma PatchTailIs(req: Request)
    requires req.patchURL != ""
    ensures var plan := [BuildPatch] + (RetestPlan(req) + TestPlan(req));
            && InOrder(plan) && Within(plan, 11, 14)
            && forall stage :: stage in plan <==> 11 <= Place(stage) && Wanted(req, stage)
  {
    OrderJoins(RetestPlan(req), TestPlan(req), 12, 13, 14);
    OrderJoins([BuildPatch], RetestPlan(req) + TestPlan(req), 11, 12, 14);
  }

  lemma PatchPlanIs(req: Request)
    ensures var plan := PatchPlan(req);
            && InOrder(plan) && Within(plan, 9, 14)
            && forall stage :: stage in plan <==> 9 <= Place(stage) && Wanted(req, stage)
  {
    if req.patchURL != "" {
      var tail := [BuildPatch] + (RetestPlan(req) + TestPlan(req));
      PatchTailIs(req);
      OrderJoins([PatchTree], tail, 10, 11, 14);
      OrderJoins([FetchPatch], [PatchTree] + tail, 9, 10, 14);
    }
  }

  lemma {:induction false} SameOrdered(a: seq<Stage>, b: seq<Stage>)
    requires InOrder(a) && InOrder(b) && forall stage :: stage in a <==> stage in b
    ensures a == b
    decreases |a|
  {
    if a == [] {
      assert forall i :: 0 <= i < |b| ==> b[i] in a;
    } else {
      assert a[0] in b && b[0] in a by {
        assert a[0] in a;
      }
      assert Place(a[0]) == Place(b[0]);
      forall stage
        ensures stage in a[1..] <==> stage in b[1..]
      {
        assert stage in a <==> stage == a[0] || stage in a[1..];
        assert stage in b <==> stage == b[0] || stage in b[1..];
      }
      SameOrdered(a[1..], b[1..]);
      assert a == [a[0]] + a[1..] && b == [b[0]] + b[1..];
    }
  }

  lemma LaterPlansAre(req: Request)
    ensures var plan := [CheckParams] + (TriggerPlan(req) + PatchPlan(req));
            && InOrder(plan) && Within(plan, 2, 14)
            && forall stage :: stage in plan <==> 2 <= Place(stage) && Wanted(req, stage)
  {
    TriggerPlanIs(req);
    PatchPlanIs(req);
    OrderJoins(TriggerPlan(req), PatchPlan(req), 3, 9, 14);
    OrderJoins([CheckParams], TriggerPlan(req) + PatchPlan(req), 2, 3, 14);
  }

  // A plan has exactly the stages the request wants, in the one order.
  lemma PlanIsExactly(req: Request)
    ensures InOrder(Plan(req)) && forall stage :: stage in Plan(req) <==> Wanted(req, stage)
  {
    var rest := TriggerPlan(req) + PatchPlan(req);
    LaterPlansAre(req);
    OrderJoins([FetchHead], [CheckParams] + rest, 1, 2, 14);
    OrderJoins([FetchTooling], [FetchHead] + ([CheckParams] + rest), 0, 1, 14);
  }

  // It is the only such list.
  lemma PlanIsTheOnlyOne(req: Request, plan: seq<Stage>)
    requires InOrder(plan) && forall stage :: stage in plan <==> Wanted(req, stage)
    ensures plan == Plan(req)
  {
    PlanIsExactly(req);
    SameOrdered(plan, Plan(req));
  }

  lemma PlanIncludes(req: Request)
    ensures req.patchURL != "" ==> PatchTree in Plan(req) && BuildPatch in Plan(req)
    ensures req.patchURL != "" && !req.skipPatchTests ==> TestPatch in Plan(req)
    ensures req.triggerURL != "" && req.patchURL == "" ==> BuildHead in Plan(req) && PovHead in Plan(req)
    ensures req.triggerURL != "" && req.patchURL == "" && req.baseURL != "" ==>
              BuildBase in Plan(req) && PovBase in Plan(req)
  {
    assert PovHead in PovPlan(BuildHead, PovHead) && BuildHead in PovPlan(BuildHead, PovHead);
    assert PovBase in PovPlan(BuildBase, PovBase) && BuildBase in PovPlan(BuildBase, PovBase);
    assert forall stage :: stage in TriggerPlan(req) || stage in PatchPlan(req) ==>
                             stage in TriggerPlan(req) + PatchPlan(req);
  }

  // Stages started and the error that ended them.
  datatype Progress = Progress(log: seq<Stage>, err: Option<Err>)

  function Step(p: Progress, stage: Stage, outcomes: Outcomes): Progress {
    if p.err.Some? then p else Progress(p.log + [stage], outcomes(stage))
  }

  function Carry(p: Progress, plan: seq<Stage>, outcomes: Outcomes): Progress
    decreases |plan|
  {
    if plan == [] then p else Carry(Step(p, plan[0], outcomes), plan[1..], outcomes)
  }

  lemma {:induction false} CarryInParts(p: Progress, a: seq<Stage>, b: seq<Stage>, outcomes: Outcomes)
    ensures Carry(p, a + b, outcomes) == Carry(Carry(p, a, outcomes), b, outcomes)
    decreases |a|
  {
    if a == [] {
      assert a + b == b;
    } else {
      assert (a + b)[1..] == a[1..] + b;
      CarryInParts(Step(p, a[0], outcomes), a[1..], b, outcomes);
    }
  }

  lemma CarryOne(p: Progress, stage: Stage, rest: seq<Stage>, outcomes: Outcomes)
    ensures Carry(p, [stage], outcomes) == Step(p, stage, outcomes)
    ensures Carry(p, [stage] + rest, outcomes) == Carry(Step(p, stage, outcomes), rest, outcomes)
  {
    assert [stage][1..] == [];
    assert ([stage] + rest)[1..] == rest;
  }

  lemma {:induction false} CarryStopped(p: Progress, plan: seq<Stage>, outcomes: Outcomes)
    requires p.err.Some?
    ensures Carry(p, plan, outcomes) == p
    decreases |plan|
  {
    if plan != [] {
      CarryStopped(p, plan[1..], outcomes);
    }
  }

  lemma {:induction false} LogDoesNotMatter(p: Progress, q: Progress, plan: seq<Stage>, outcomes: Outcomes)
    requires p.err == q.err
    ensures Carry(p, plan, outcomes).err == Carry(q, plan, outcomes).err
    decreases |plan|
  {
    if plan != [] {
      LogDoesNotMatter(Step(p, plan[0], outcomes), Step(q, plan[0], outcomes), plan[1..], outcomes);
    }
  }

  // Stage i is the first of the plan to return an error.
  ghost predicate FailsFirst(plan: seq<Stage>, outcomes: Outcomes, i: nat) {
    i < |plan| && outcomes(plan[i]).Some? && forall j :: 0 <= j < i ==> outcomes(plan[j]).None?
  }

  ghost predicate NoneFails(plan: seq<Stage>, outcomes: Outcomes) {
    forall i :: 0 <= i < |plan| ==> outcomes(plan[i]).None?
  }

  // A plan is carried out up to and including its first failing stage, and returns that failure.
  lemma {:induction false} CarryMeaning(before: seq<Stage>, plan: seq<Stage>, outcomes: Outcomes)
    ensures var p := Carry(Progress(before, None), plan, outcomes);
            match p.err
            case None => p.log == before + plan && NoneFails(plan, outcomes)
            case Some(_) =>
              exists i: nat :: FailsFirst(plan, outcomes, i) && outcomes(plan[i]) == p.err
                               && p.log == before + plan[..i + 1]
    decreases |plan|
  {
    if plan == [] {
      assert before + plan == before;
    } else {
      var rest := plan[1..];
      var p := Progress(before + [plan[0]], outcomes(plan[0]));
      if p.err.Some? {
        CarryStopped(p, rest, outcomes);
        assert plan[..0 + 1] == [plan[0]];
        assert FailsFirst(plan, outcomes, 0);
      } else {
        CarryMeaning(p.log, rest, outcomes);
        var q := Carry(p, rest, outcomes);
        if q.err.Some? {
          var i: nat :| FailsFirst(rest, outcomes, i) && outcomes(rest[i]) == q.err && q.log == p.log + rest[..i + 1];
          assert plan[i + 1] == rest[i];
          assert before + plan[..i + 2] == p.log + rest[..i + 1];
          assert FailsFirst(plan, outcomes, i + 1);
        } else {
          assert before + plan == p.log + rest;
        }
      }
    }
  }

  // The final message's status and test flag.
  function Sent(req: Request, outcomes: Outcomes, schedule: Schedule): (Status, bool) {
    match schedule
    case TimedOut => (Inconclusive, false)
    case Finished(late) =>
      var (status, testsFailed) := Reported(Carry(Progress([], None), Plan(req), outcomes).err);
      (if late then Inconclusive else status, testsFailed)
  }

  datatype FinalMsg = FinalMsg(entity: JobType, entityID: EntityId, status: Status, patchTestsFailed: bool)

  class Worker {
    const entity: JobType
    const entityID: EntityId
    var log: seq<Stage>           // stages started
    var finals: seq<FinalMsg>     // final messages handed to the queue

    constructor (entity: JobType, entityID: EntityId)
      ensures this.entity == entity && this.entityID == entityID
      ensures log == [] && finals == []
    {
      this.entity, this.entityID := entity, entityID;
      log, finals := [], [];
    }

    method Do(stage: Stage, outcomes: Outcomes) returns (err: Option<Err>)
      modifies this`log
      ensures Progress(log, err) == Step(Progress(old(log), None), stage, outcomes)
    {
      log := log + [stage];
      err := outcomes(stage);
    }

    method RunPovTests(build: Stage, pov: Stage, outcomes: Outcomes) returns (err: Option<Err>)
      modifies this`log
      ensures Progress(log, err) == Carry(Progress(old(log), None), PovPlan(build, pov), outcomes)
    {
      CarryOne(Progress(log, None), build, [pov], outcomes);
      err := Do(build, outcomes);
      CarryOne(Progress(log, err), pov, [], outcomes);
      if err.None? {
        err := Do(pov, outcomes);
      }
    }

    method RunBaseTests(req: Request, outcomes: Outcomes) returns (err: Option<Err>)
      requires req.baseURL != ""
      modifies this`log
      ensures Progress(log, err) == Carry(Progress(old(log), None), BasePlan(req), outcomes)
    {
      CarryOne(Progress(log, None), FetchBase, PovPlan(BuildBase, PovBase), outcomes);
      err := Do(FetchBase, outcomes);
      if err.Some? {
        CarryStopped(Progress(log, err), PovPlan(BuildBase, PovBase), outcomes);
        return;
      }
      err := RunPovTests(BuildBase, PovBase, outcomes);
    }

    method RunCrashTests(req: Request, outcomes: Outcomes) returns (err: Option<Err>)
      modifies this`log
      ensures Progress(log, err) == Carry(Progress(old(log), None), CrashPlan(req), outcomes)
    {
      CarryInParts(Progress(log, None), BasePlan(req), PovPlan(BuildHead, PovHead), outcomes);
      if req.baseURL != "" {
        err := RunBaseTests(req, outcomes);
        if err.Some? {
          CarryStopped(Progress(log, err), PovPlan(BuildHead, PovHead), outcomes);
          return;
        }
      }
      err := RunPovTests(BuildHead, PovHead, outcomes);
    }

    method RunTriggerTests(req: Request, outcomes: Outcomes) returns (err: Option<Err>)
      requires req.triggerURL != ""
      modifies this`log
      ensures Progress(log, err) == Carry(Progress(old(log), None), TriggerPlan(req), outcomes)
    {
      ghost var crash := if req.patchURL == "" then CrashPlan(req) else [];
      CarryOne(Progress(log, None), FetchTrigger, crash, outcomes);
      err := Do(FetchTrigger, outcomes);
      if err.Some? {
        CarryStopped(Progress(log, err), crash, outcomes);
        return;
      }
      if req.patchURL == "" {
        err := RunCrashTests(req, outcomes);
      }
    }

    method RunPatchTests(req: Request, outcomes: Outcomes) returns (err: Option<Err>)
      requires req.patchURL != ""
      modifies this`log
      ensures Progress(log, err) == Carry(Progress(old(log), None), PatchPlan(req), outcomes)
    {
      ghost var last := RetestPlan(req) + TestPlan(req);
      CarryOne(Progress(log, None), FetchPatch, [PatchTree] + ([BuildPatch] + last), outcomes);
      err := Do(FetchPatch, outcomes);
      if err.Some? {
        CarryStopped(Progress(log, err), [PatchTree] + ([BuildPatch] + last), outcomes);
        return;
      }
      CarryOne(Progress(log, None), PatchTree, [BuildPatch] + last, outcomes);
      err := Do(PatchTree, outcomes);
      if err.Some? {
        CarryStopped(Progress(log, err), [BuildPatch] + last, outcomes);
        return;
      }
      CarryOne(Progress(log, None), BuildPatch, last, outcomes);
      err := Do(BuildPatch, outcomes);
      if err.Some? {
        CarryStopped(Progress(log, err), last, outcomes);
        return;
      }
      err := Retest(req, outcomes);
    }

    // The last two steps of the patch tests.
    method Retest(req: Request, outcomes: Outcomes) returns (err: Option<Err>)
      modifies this`log
      ensures Progress(log, err) == Carry(Progress(old(log), None), RetestPlan(req) + TestPlan(req), outcomes)
    {
      CarryInParts(Progress(log, None), RetestPlan(req), TestPlan(req), outcomes);
      err := None;
      if req.triggerPath != "" {
        CarryOne(Progress(log, None), PovPatch, [], outcomes);
        err := Do(PovPatch, outcomes);
        if err.Some? {
          CarryStopped(Progress(log, err), TestPlan(req), outcomes);
          return;
        }
      }
      if !req.skipPatchTests {
        CarryOne(Progress(log, None), TestPatch, [], outcomes);
        err := Do(TestPatch, outcomes);
      }
    }

    method RunStages(req: Request, outcomes: Outcomes) returns (err: Option<Err>)
      modifies this`log
      ensures Progress(log, err) == Carry(Progress(old(log), None), Plan(req), outcomes)
    {
      ghost var rest := TriggerPlan(req) + PatchPlan(req);
      CarryOne(Progress(log, None), FetchTooling, [FetchHead] + ([CheckParams] + rest), outcomes);
      err := Do(FetchTooling, outcomes);
      if err.Some? {
        CarryStopped(Progress(log, err), [FetchHead] + ([CheckParams] + rest), outcomes);
        return;
      }
      CarryOne(Progress(log, None), FetchHead, [CheckParams] + rest, outcomes);
      err := Do(FetchHead, outcomes);
      if err.Some? {
        CarryStopped(Progress(log, err), [CheckParams] + rest, outcomes);
        return;
      }
      CarryOne(Progress(log, None), CheckParams, rest, outcomes);
      err := Do(CheckParams, outcomes);
      if err.Some? {
        CarryStopped(Progress(log, err), rest, outcomes);
        return;
      }
      CarryInParts(Progress(log, None), TriggerPlan(req), PatchPlan(req), outcomes);
      if req.triggerURL != "" {
        err := RunTriggerTests(req, outcomes);
        if err.Some? {
          CarryStopped(Progress(log, err), PatchPlan(req), outcomes);
          return;
        }
      }
      if req.patchURL != "" {
        err := RunPatchTests(req, outcomes);
      }
    }

    // One final message on every schedule; the run's own error is only whether that was queued.
    method Evaluate(req: Request, outcomes: Outcomes, schedule: Schedule, queued: Enqueue) returns (err: Option<Err>)
      modifies this
      ensures var (status, testsFailed) := Sent(req, outcomes, schedule);
              finals == old(finals) + [FinalMsg(entity, entityID, status, testsFailed)]
      ensures err.None? <==> queued.Queued?
      ensures schedule.Finished? ==> log == Carry(Progress(old(log), None), Plan(req), outcomes).log
    {
      var status, patchTestsFailed := Passed, false;
      match schedule {
        case TimedOut =>
          status := Inconclusive;
        case Finished(late) =>
          LogDoesNotMatter(Progress(log, None), Progress([], None), Plan(req), outcomes);
          var evalError := RunStages(req, outcomes);
          if evalError.Some? {
            var se := AsStatus(evalError.value);
            if se.Some? {
              status := se.value.status;
              patchTestsFailed := se.value.patchTestsFailed;
            } else {
              status := Errored;
            }
          }
          if late {
            status := Inconclusive;
          }
      }
      finals := finals + [FinalMsg(entity, entityID, status, patchTestsFailed)];
      err := if queued.Queued? then None else Some(queued.e);
    }
  }
}
