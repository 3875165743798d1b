// Taking in a POV or patch: the row first, then its job, as steps of the protocol.
module Submissions {
  import opened Types
  import opened CacheKey
  import opened Results
  import opened Protocol
  import opened Safety
  import CommandLine
  import EndToEnd
  import Evaluate
  import J = JobRunner

  // What can go wrong.
  datatype Faults = Faults(upload: bool, insert: bool, archive: bool, presign: bool, launch: Launch)

  // The encoded testcase or patch, and the name it is stored under.
  datatype Body = Body(length: nat, decodes: bool, blob: string)

  datatype Submission =
    | Pov(body: Body, fuzzer: string, sanitizer: string, architecture: string, engine: string)
    | Patch(body: Body)
  {
    function Kind(): JobType { if Pov? then PovJob else PatchJob }
  }

  datatype Response = Taken(status: Status) | Refusal(why: J.Refusal)

  // POVs need a task with harnesses, and everything has a size limit.
  predicate Acceptable(sub: Submission, harnesses: bool) {
    && sub.body.decodes
    && match sub
       case Pov(body, _, _, _, _) => harnesses && body.length <= J.MAX_TRIGGER
       case Patch(body) => body.length <= J.MAX_PATCH
  }

  predicate Inserts(sub: Submission, harnesses: bool, f: Faults) {
    Acceptable(sub, harnesses) && !f.upload && !f.insert
  }

  // All sources of the task can be linked to.
  predicate Linkable(task: J.Task, f: Faults) { !f.presign && (task.delta ==> task.base.Some?) }

  predicate Launchable(task: J.Task, late: bool, hasClient: bool, f: Faults) {
    !late && hasClient && !f.archive && Linkable(task, f) && !f.launch.Refuses?
  }

  // The protocol steps of a request that gets as far as its row, or does not.
  function Steps(key: Key, task: J.Task, late: bool, hasClient: bool, inserts: bool, f: Faults): seq<Action> {
    if !inserts then []
    else if Launchable(task, late, hasClient, f) then [Submit(key, late), Launch(key)]
    else [Submit(key, late)]
  }

  function LinkToSource(source: J.Source): Word { SourceLink(source.url, source.sha256) }

  function SourceWords(task: J.Task): seq<Word> {
    [Flag(HeadRepoUrl), LinkToSource(task.head), Flag(CacheKey.Focus), Text(task.focus),
     Flag(ProjectName), Text(task.project), Flag(OssFuzzUrl), LinkToSource(task.tooling)]
  }

  function SubmissionWords(sub: Submission): seq<Word> {
    match sub
    case Pov(body, fuzzer, sanitizer, architecture, engine) =>
      [Flag(Architecture), Text(architecture), Flag(TriggerUrl), BlobLink(body.blob),
       Flag(Sanitizer), Text(sanitizer), Flag(HarnessName), Text(fuzzer), Flag(Engine), Text(engine)]
    case Patch(body) =>
      [Flag(Architecture), Text("x86_64"), Flag(PatchUrl), BlobLink(body.blob),
       Flag(AllowedLanguages), Text("c"), Flag(AllowedLanguages), Text("java")]
  }

  // The identifier under the flag of its kind, and what only POVs have.
  function RowWords(key: Key, sub: Submission, task: J.Task): seq<Word>
    requires task.delta ==> task.base.Some?
  {
    if sub.Patch? then [Flag(PatchIdFlag), JobId(key.uuid)]
    else [Flag(PovIdFlag), JobId(key.uuid), Flag(ArchiveS3)]
         + if task.delta then [Flag(BaseRepoUrl), LinkToSource(task.base.value)] else []
  }

  // The arguments of the worker of a submission.
  function JobWords(key: Key, sub: Submission, task: J.Task): seq<Word>
    requires task.delta ==> task.base.Some?
  {
    SourceWords(task) + SubmissionWords(sub) + RowWords(key, sub, task)
  }

  class Frontend {
    const hasClient: bool
    var state: State
    var arguments: map<Key, seq<Word>>   // of the jobs created

    constructor (hasClient: bool)
      ensures this.hasClient == hasClient && state == START && arguments == map[]
    {
      this.hasClient, state, arguments := hasClient, START, map[];
    }

    method SubmitPOV(key: Key, sub: Submission, task: J.Task, harnesses: bool, requestTime: int, deadline: int,
                     f: Faults)
      returns (response: Response)
      requires key.kind.PovJob? && sub.Pov? && key !in state.db.rows && Rooted(state)
      modifies this
      ensures var late := requestTime > deadline;
              && Leads(old(state), Steps(key, task, late, hasClient, Inserts(sub, harnesses, f), f), state)
              && arguments == (if Inserts(sub, harnesses, f) && Launchable(task, late, hasClient, f)
                               then old(arguments)[key := JobWords(key, sub, task)] else old(arguments))
              && response == Answer(sub, task, harnesses, late, hasClient, f)
    {
      if !harnesses {
        return Refusal(J.BadRequest);
      }
      if sub.body.length > J.MAX_TRIGGER || !sub.body.decodes {
        return Refusal(J.BadRequest);
      }
      response := Take(key, sub, task, requestTime > deadline, f);
    }

    method SubmitPatch(key: Key, sub: Submission, task: J.Task, requestTime: int, deadline: int, f: Faults)
      returns (response: Response)
      requires key.kind.PatchJob? && sub.Patch? && key !in state.db.rows && Rooted(state)
      modifies this
      ensures var late := requestTime > deadline;
              && Leads(old(state), Steps(key, task, late, hasClient, Inserts(sub, true, f), f), state)
              && arguments == (if Inserts(sub, true, f) && Launchable(task, late, hasClient, f)
                               then old(arguments)[key := JobWords(key, sub, task)] else old(arguments))
              && response == Answer(sub, task, true, late, hasClient, f)
    {
      if sub.body.length > J.MAX_PATCH || !sub.body.decodes {
        return Refusal(J.BadRequest);
      }
      response := Take(key, sub, task, requestTime > deadline, f);
    }

    // What both do with an acceptable submission: store the data, insert the row, archive the data, create the job.
    method Take(key: Key, sub: Submission, task: J.Task, late: bool, f: Faults) returns (response: Response)
      requires Audited(key) && key.kind == sub.Kind() && key !in state.db.rows && Rooted(state)
      requires Acceptable(sub, true)
      modifies this
      ensures Leads(old(state), Steps(key, task, late, hasClient, Inserts(sub, true, f), f), state)
      ensures arguments == if Inserts(sub, true, f) && Launchable(task, late, hasClient, f)
                           then old(arguments)[key := JobWords(key, sub, task)] else old(arguments)
      ensures response == Answer(sub, task, true, late, hasClient, f)
    {
      if f.upload {
        return Refusal(J.ServerError);
      }
      var status := Accepted;
      if late {
        status := DeadlineExceeded;
      }
      if f.insert {
        return Refusal(J.ServerError);
      }
      ghost var before := state;
      state := state.(db := Db(state.db.rows[key := Row(status, None)], state.db.audit));
      assert state == Apply(before, Submit(key, late));
      assert [Submit(key, late)][1..] == [];
      assert [Submit(key, late), Launch(key)][1..] == [Launch(key)];
      if f.archive {
        return Refusal(J.ServerError);
      }
      if !late && hasClient {
        if f.presign || (task.delta && task.base.None?) {
          return Refusal(J.ServerError);
        }
        var args := Words(key, sub, task);
        if !f.launch.Refuses? {
          arguments := arguments[key := args];
          state := state.(launched := state.launched + {key}, jobs := state.jobs + {key},
                          conditions := state.conditions[key := []]);
        }
        if !f.launch.Launches? {
          return Refusal(J.ServerError);
        }
      }
      response := Taken(status);
    }

    static method Words(key: Key, sub: Submission, task: J.Task) returns (args: seq<Word>)
      requires task.delta ==> task.base.Some?
      ensures args == JobWords(key, sub, task)
    {
      args := [Flag(HeadRepoUrl), LinkToSource(task.head), Flag(CacheKey.Focus), Text(task.focus),
               Flag(ProjectName), Text(task.project), Flag(OssFuzzUrl), LinkToSource(task.tooling)];
      match sub {
        case Pov(body, fuzzer, sanitizer, architecture, engine) =>
          args := args + [Flag(Architecture), Text(architecture), Flag(TriggerUrl), BlobLink(body.blob),
                          Flag(Sanitizer), Text(sanitizer), Flag(HarnessName), Text(fuzzer),
                          Flag(Engine), Text(engine)];
          ghost var front := args;
          args := args + [Flag(PovIdFlag), JobId(key.uuid), Flag(ArchiveS3)];
          if task.delta {
            args := args + [Flag(BaseRepoUrl), LinkToSource(task.base.value)];
          }
          assert args == front + RowWords(key, sub, task);
        case Patch(body) =>
          args := args + [Flag(Architecture), Text("x86_64"), Flag(PatchUrl), BlobLink(body.blob),
                          Flag(AllowedLanguages), Text("c"), Flag(AllowedLanguages), Text("java")];
          args := args + [Flag(PatchIdFlag), JobId(key.uuid)];
      }
    }
  }

  // The answer: refused as bad exactly when not acceptable, taken with a status that says whether it was late.
  function Answer(sub: Submission, task: J.Task, harnesses: bool, late: bool, hasClient: bool, f: Faults): Response {
    if !Acceptable(sub, harnesses) then Refusal(J.BadRequest)
    else if f.upload || f.insert || f.archive then Refusal(J.ServerError)
    else if !late && hasClient && !(Linkable(task, f) && f.launch.Launches?) then Refusal(J.ServerError)
    else Taken(if late then DeadlineExceeded else Accepted)
  }

  // A submission is refused as bad exactly when it does not decode, is too long (in characters of base64), or is a
  // POV for a task without harnesses, and then leaves nothing; it is taken exactly when nothing fails on its way.
  lemma AnswerMeans(key: Key, sub: Submission, task: J.Task, harnesses: bool, late: bool, hasClient: bool, f: Faults)
    ensures var answer := Answer(sub, task, harnesses, late, hasClient, f);
            var steps := Steps(key, task, late, hasClient, Inserts(sub, harnesses, f), f);
            var bad := !sub.body.decodes || (sub.Pov? && (!harnesses || sub.body.length > 2796204))
                       || (sub.Patch? && sub.body.length > 136536);
            && (answer == Refusal(J.BadRequest) <==> bad) && (bad ==> steps == [])
            && (answer.Taken? <==>
                  && !bad && !f.upload && !f.insert && !f.archive
                  && (!late && hasClient ==>
                        !f.presign && !(task.delta && task.base.None?) && f.launch == Launches))
            && (answer.Taken? ==> (answer.status == DeadlineExceeded <==> late))
            && (Submit(key, late) in steps <==> !bad && !f.upload && !f.insert)
            && (Launch(key) in steps <==>
                  && !bad && !f.upload && !f.insert && !f.archive && !late && hasClient
                  && !f.presign && !(task.delta && task.base.None?) && f.launch != Refuses)
  {
  }

  // An answer tells what was stored: the row with its status, and its job unless late or without a cluster.
  lemma TakenMeans(s: State, key: Key, sub: Submission, task: J.Task, harnesses: bool, late: bool, hasClient: bool,
                   f: Faults, s': State)
    requires Rooted(s) && Audited(key) && key !in s.db.rows
    requires Leads(s, Steps(key, task, late, hasClient, Inserts(sub, harnesses, f), f), s')
    requires Answer(sub, task, harnesses, late, hasClient, f).Taken?
    ensures key in s'.db.rows && s'.db.rows[key] == Row(Answer(sub, task, harnesses, late, hasClient, f).status, None)
    ensures key in s'.launched <==> !late && hasClient
  {
    var submit := Submit(key, late);
    var mid := Apply(s, submit);
    if !late && hasClient {
      var rest := [submit, Launch(key)][1..];
      assert rest == [Launch(key)];
      assert Leads(mid, rest, s');
      assert Leads(Apply(mid, rest[0]), rest[1..], s');
      assert rest[1..] == [];
    } else {
      assert [submit][1..] == [];
      assert Leads(mid, [submit][1..], s');
    }
  }

  /* ------------------------------------------------------- the job's worker */

  // The run was started with these words: its URLs and the skip flag are there iff the words say so.
  predicate StartedWith(run: Evaluate.Run, words: seq<Word>) {
    && (run.triggerURL != "" <==> Mentions(words, TriggerUrl)) && (run.patchURL != "" <==> Mentions(words, PatchUrl))
    && (run.baseURL != "" <==> Mentions(words, BaseRepoUrl))
    && (run.skipPatchTests <==> Mentions(words, SkipPatchTests))
  }

  predicate Mentions(words: seq<Word>, flag: Flag) { Flag(flag) in words }

  lemma SourceFlags(task: J.Task, flag: Flag)
    ensures Mentions(SourceWords(task), flag) <==> flag in {HeadRepoUrl, CacheKey.Focus, ProjectName, OssFuzzUrl}
  {
    var words := SourceWords(task);
    assert words[0] == Flag(HeadRepoUrl) && words[2] == Flag(CacheKey.Focus);
    assert words[4] == Flag(ProjectName) && words[6] == Flag(OssFuzzUrl);
  }

  lemma SubmissionFlags(sub: Submission, flag: Flag)
    ensures Mentions(SubmissionWords(sub), flag) <==>
              flag in if sub.Pov? then {Architecture, TriggerUrl, Sanitizer, HarnessName, Engine}
                      else {Architecture, PatchUrl, AllowedLanguages}
  {
    var words := SubmissionWords(sub);
    assert words[0] == Flag(Architecture) && words[2] == Flag(if sub.Pov? then TriggerUrl else PatchUrl);
    assert words[4] == Flag(if sub.Pov? then Sanitizer else AllowedLanguages);
    assert sub.Pov? ==> words[6] == Flag(HarnessName) && words[8] == Flag(Engine);
  }

  lemma RowFlags(key: Key, sub: Submission, task: J.Task, flag: Flag)
    requires task.delta ==> task.base.Some?
    ensures Mentions(RowWords(key, sub, task), flag) <==>
              if sub.Patch? then flag.PatchIdFlag?
              else flag in {PovIdFlag, ArchiveS3} || (task.delta && flag.BaseRepoUrl?)
  {
    var words := RowWords(key, sub, task);
    assert words[0] == Flag(if sub.Pov? then PovIdFlag else PatchIdFlag);
    assert sub.Pov? ==> words[2] == Flag(ArchiveS3) && (task.delta ==> words[3] == Flag(BaseRepoUrl));
  }

  lemma WordFlags(key: Key, sub: Submission, task: J.Task, flag: Flag)
    requires task.delta ==> task.base.Some?
    ensures Mentions(JobWords(key, sub, task), flag) <==>
              Mentions(SourceWords(task), flag) || Mentions(SubmissionWords(sub), flag)
              || Mentions(RowWords(key, sub, task), flag)
  {
    assert Mentions(SourceWords(task) + SubmissionWords(sub), flag)
           <==> Mentions(SourceWords(task), flag) || Mentions(SubmissionWords(sub), flag);
  }

  // Which flags a job is given.
  lemma JobFlags(key: Key, sub: Submission, task: J.Task, flag: Flag)
    requires task.delta ==> task.base.Some?
    ensures Mentions(JobWords(key, sub, task), flag) <==>
              || flag in {HeadRepoUrl, CacheKey.Focus, ProjectName, OssFuzzUrl, Architecture}
              || (sub.Pov? && flag in {TriggerUrl, Sanitizer, HarnessName, Engine, PovIdFlag, ArchiveS3})
              || (sub.Pov? && task.delta && flag.BaseRepoUrl?)
              || (sub.Patch? && flag in {PatchUrl, AllowedLanguages, PatchIdFlag})
  {
    SourceFlags(task, flag);
    SubmissionFlags(sub, flag);
    RowFlags(key, sub, task, flag);
    WordFlags(key, sub, task, flag);
  }

  // The value a worker is to find under a flag.
  function ValueFor(key: Key, sub: Submission, task: J.Task, flag: Flag): Option<Word>
    requires task.delta ==> task.base.Some?
  {
    match flag
    case HeadRepoUrl => Some(SourceLink(task.head.url, task.head.sha256))
    case OssFuzzUrl => Some(SourceLink(task.tooling.url, task.tooling.sha256))
    case Focus => Some(Text(task.focus))
    case ProjectName => Some(Text(task.project))
    case Architecture => Some(Text(if sub.Pov? then sub.architecture else "x86_64"))
    case TriggerUrl => if sub.Pov? then Some(BlobLink(sub.body.blob)) else None
    case Sanitizer => if sub.Pov? then Some(Text(sub.sanitizer)) else None
    case HarnessName => if sub.Pov? then Some(Text(sub.fuzzer)) else None
    case Engine => if sub.Pov? then Some(Text(sub.engine)) else None
    case BaseRepoUrl =>
      if sub.Pov? && task.delta then Some(SourceLink(task.base.value.url, task.base.value.sha256)) else None
    case PatchUrl => if sub.Patch? then Some(BlobLink(sub.body.blob)) else None
    case AllowedLanguages => if sub.Patch? then Some(Text("java")) else None
    case PovIdFlag => if sub.Pov? then Some(JobId(key.uuid)) else None
    case PatchIdFlag => if sub.Patch? then Some(JobId(key.uuid)) else None
    case _ => None
  }

  lemma SourcesGive(key: Key, sub: Submission, task: J.Task, flag: Flag)
    requires task.delta ==> task.base.Some?
    ensures CommandLine.ValueOf(SourceWords(task), flag)
         == if flag in {HeadRepoUrl, CacheKey.Focus, ProjectName, OssFuzzUrl} then ValueFor(key, sub, task, flag)
            else None
  {
    var w1 := [Flag(HeadRepoUrl), LinkToSource(task.head)];
    var w2 := w1 + [Flag(CacheKey.Focus), Text(task.focus)];
    var w3 := w2 + [Flag(ProjectName), Text(task.project)];
    CommandLine.PairGives(HeadRepoUrl, LinkToSource(task.head), flag);
    CommandLine.PairsGive(w1, CacheKey.Focus, Text(task.focus), flag);
    CommandLine.PairsGive(w2, ProjectName, Text(task.project), flag);
    CommandLine.PairsGive(w3, OssFuzzUrl, LinkToSource(task.tooling), flag);
    assert SourceWords(task) == w3 + [Flag(OssFuzzUrl), LinkToSource(task.tooling)];
  }

  lemma PovGives(key: Key, sub: Submission, task: J.Task, flag: Flag)
    requires sub.Pov? && (task.delta ==> task.base.Some?)
    ensures CommandLine.ValueOf(SubmissionWords(sub), flag)
         == if flag in {Architecture, TriggerUrl, Sanitizer, HarnessName, Engine} then ValueFor(key, sub, task, flag)
            else None
  {
    var w1 := [Flag(Architecture), Text(sub.architecture)];
    var w2 := w1 + [Flag(TriggerUrl), BlobLink(sub.body.blob)];
    var w3 := w2 + [Flag(Sanitizer), Text(sub.sanitizer)];
    var w4 := w3 + [Flag(HarnessName), Text(sub.fuzzer)];
    CommandLine.PairGives(Architecture, Text(sub.architecture), flag);
    CommandLine.PairsGive(w1, TriggerUrl, BlobLink(sub.body.blob), flag);
    CommandLine.PairsGive(w2, Sanitizer, Text(sub.sanitizer), flag);
    CommandLine.PairsGive(w3, HarnessName, Text(sub.fuzzer), flag);
    CommandLine.PairsGive(w4, Engine, Text(sub.engine), flag);
    assert SubmissionWords(sub) == w4 + [Flag(Engine), Text(sub.engine)];
  }

  lemma PatchGives(key: Key, sub: Submission, task: J.Task, flag: Flag)
    requires sub.Patch? && (task.delta ==> task.base.Some?)
    ensures CommandLine.ValueOf(SubmissionWords(sub), flag)
         == if flag in {Architecture, PatchUrl, AllowedLanguages} then ValueFor(key, sub, task, flag) else None
  {
    var w1 := [Flag(Architecture), Text("x86_64")];
    var w2 := w1 + [Flag(PatchUrl), BlobLink(sub.body.blob)];
    var w3 := w2 + [Flag(AllowedLanguages), Text("c")];
    CommandLine.PairGives(Architecture, Text("x86_64"), flag);
    CommandLine.PairsGive(w1, PatchUrl, BlobLink(sub.body.blob), flag);
    CommandLine.PairsGive(w2, AllowedLanguages, Text("c"), flag);
    CommandLine.PairsGive(w3, AllowedLanguages, Text("java"), flag);
    assert SubmissionWords(sub) == w3 + [Flag(AllowedLanguages), Text("java")];
  }

  lemma RowGives(key: Key, sub: Submission, task: J.Task, flag: Flag)
    requires (task.delta ==> task.base.Some?) && CommandLine.Valued(flag)
    ensures CommandLine.ValueOf(RowWords(key, sub, task), flag)
         == if flag in {PovIdFlag, PatchIdFlag, BaseRepoUrl} then ValueFor(key, sub, task, flag) else None
  {
    if sub.Patch? {
      CommandLine.PairGives(PatchIdFlag, JobId(key.uuid), flag);
    } else {
      var front := [Flag(PovIdFlag), JobId(key.uuid)];
      CommandLine.PairGives(PovIdFlag, JobId(key.uuid), flag);
      CommandLine.ValueInParts(front, [Flag(ArchiveS3)], flag);
      assert front + [Flag(ArchiveS3)] == [Flag(PovIdFlag), JobId(key.uuid), Flag(ArchiveS3)];
      if task.delta {
        CommandLine.PairGives(BaseRepoUrl, LinkToSource(task.base.value), flag);
        var base := [Flag(BaseRepoUrl), LinkToSource(task.base.value)];
        CommandLine.ValueInParts(front + [Flag(ArchiveS3)], base, flag);
        assert RowWords(key, sub, task) == front + [Flag(ArchiveS3)] + base;
      } else {
        assert RowWords(key, sub, task) == front + [Flag(ArchiveS3)];
      }
    }
  }

  // Under every flag the worker of a submission finds what the submission, its task and its row say.
  lemma JobGives(key: Key, sub: Submission, task: J.Task, flag: Flag)
    requires (task.delta ==> task.base.Some?) && CommandLine.Valued(flag)
    ensures CommandLine.ValueOf(JobWords(key, sub, task), flag) == ValueFor(key, sub, task, flag)
  {
    SourcesGive(key, sub, task, flag);
    if sub.Pov? {
      PovGives(key, sub, task, flag);
    } else {
      PatchGives(key, sub, task, flag);
    }
    RowGives(key, sub, task, flag);
    ValueInThree(SourceWords(task), SubmissionWords(sub), RowWords(key, sub, task), flag);
  }

  lemma ValueInThree(a: seq<Word>, b: seq<Word>, c: seq<Word>, flag: Flag)
    requires a != [] && b != [] && !a[|a| - 1].Flag? && !b[|b| - 1].Flag?
    ensures CommandLine.ValueOf(a + b + c, flag)
         == if CommandLine.ValueOf(c, flag).Some? then CommandLine.ValueOf(c, flag)
            else if CommandLine.ValueOf(b, flag).Some? then CommandLine.ValueOf(b, flag)
            else CommandLine.ValueOf(a, flag)
  {
    assert (a + b)[|a + b| - 1] == b[|b| - 1];
    CommandLine.ValueInParts(a, b, flag);
    CommandLine.ValueInParts(a + b, c, flag);
  }

  // A worker started with the arguments of a row's job reports for that row.
  lemma WorkerReportsForRow(key: Key, sub: Submission, task: J.Task)
    requires Audited(key) && key.kind == sub.Kind() && (task.delta ==> task.base.Some?)
    ensures CommandLine.FlagsGiven(JobWords(key, sub, task)) == EndToEnd.FlagsFor(key)
    ensures EndToEnd.Identity(CommandLine.FlagsGiven(JobWords(key, sub, task))) == (key.kind, Id(key.uuid))
  {
    JobGives(key, sub, task, JobIdFlag);
    JobGives(key, sub, task, PovIdFlag);
    JobGives(key, sub, task, PatchIdFlag);
  }

  // And it evaluates that row.
  lemma WorkerEvaluatesRow(key: Key, sub: Submission, task: J.Task, run: Evaluate.Run)
    requires Audited(key) && key.kind == sub.Kind() && (task.delta ==> task.base.Some?)
    requires Evaluate.Coherent(run) && StartedWith(run, JobWords(key, sub, task))
    ensures EndToEnd.EvaluatesRow(key, run)
    ensures run.baseURL != "" <==> key.kind.PovJob? && task.delta
  {
    JobFlags(key, sub, task, TriggerUrl);
    JobFlags(key, sub, task, PatchUrl);
    JobFlags(key, sub, task, BaseRepoUrl);
    JobFlags(key, sub, task, SkipPatchTests);
  }

  lemma {:induction false} LaunchedStays(s: State, actions: seq<Action>, s': State, key: Key)
    requires Leads(s, actions, s') && key in s.launched
    ensures key in s'.launched
    decreases |actions|
  {
    if actions != [] {
      LaunchedStays(Apply(s, actions[0]), actions[1..], s', key);
    }
  }

  lemma {:induction false} LaunchTakenIsLaunched(s: State, actions: seq<Action>, s': State, key: Key)
    requires Leads(s, actions, s') && Launch(key) in actions
    ensures key in s'.launched
    decreases |actions|
  {
    var next := Apply(s, actions[0]);
    if actions[0] == Launch(key) {
      LaunchedStays(next, actions[1..], s', key);
    } else {
      LaunchTakenIsLaunched(next, actions[1..], s', key);
    }
  }

  lemma LaunchedIsCarried(s: State, key: Key)
    requires Reachable(s) && key in s.launched
    ensures key in s.db.rows
    ensures || s.db.rows[key].status in VERDICTS
            || (s.db.rows[key].status == Accepted && (key in s.jobs || HasMessage(s, key)))
  {
    ReachableInv(s);
    assert RowExplained(s, key);
    if Matches(s.db, key) {
      NoVerdictIsLost(s, key);
    }
  }

  lemma ReachableLater(s: State, actions: seq<Action>, s': State)
    requires Reachable(s) && Leads(s, actions, s')
    ensures Reachable(s')
  {
    var first :| Leads(START, first, s);
    LeadsInParts(START, first, s, actions, s');
  }

  // A submission that was answered in time is from then on settled, or has its job or a message for it, in every
  // run in which its steps were taken, whatever others did before, between and after them.
  lemma TakenIsNeverLost(actions: seq<Action>, s: State, key: Key, task: J.Task, f: Faults)
    requires Leads(START, actions, s) && Launchable(task, false, true, f)
    requires forall a :: a in Steps(key, task, false, true, true, f) ==> a in actions
    ensures key in s.db.rows
    ensures || s.db.rows[key].status in VERDICTS
            || (s.db.rows[key].status == Accepted && (key in s.jobs || HasMessage(s, key)))
  {
    assert Launch(key) in Steps(key, task, false, true, true, f);
    LaunchTakenIsLaunched(START, actions, s, key);
    assert Reachable(s);
    LaunchedIsCarried(s, key);
  }

  // A late submission is stored, and never launched or changed.
  lemma LateIsNeverEvaluated(s: State, key: Key, later: seq<Action>, s': State)
    requires Reachable(s) && key in s.db.rows && s.db.rows[key].status == DeadlineExceeded && Leads(s, later, s')
    ensures key in s'.db.rows && s'.db.rows[key] == Row(DeadlineExceeded, None)
    ensures key !in s'.launched && key !in s'.jobs && !HasMessage(s', key)
  {
    ReachableLater(s, later, s');
    ReachableInv(s);
    ReachableInv(s');
    assert RowExplained(s, key);
    FinalRowsStay(s, later, s', key);
    assert RowExplained(s', key);
  }
}
