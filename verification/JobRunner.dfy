// The jobrunner: works out what a request asks for, and finds or starts the job that does it.
module JobRunner {
  import opened Types
  import opened CacheKey
  import opened KeyShapes

  datatype Source = Source(url: string, sha256: string)

  datatype Task = Task(
    head: Source, tooling: Source, base: Option<Source>, delta: bool, focus: string, project: string,
    memoryGB: int, cpus: int)

  const NO_TASK: Task := Task(Source("", ""), Source("", ""), None, false, "", "", 0, 0)

  datatype JobArgs = JobArgs(
    taskId: Option<EntityId>, architecture: string,
    fuzzer: Option<string>, sanitizer: Option<string>, engine: Option<string>,
    testcaseB64: Option<string>, testcaseHash: Option<string>, patchB64: Option<string>, patchHash: Option<string>,
    skipPatchTests: Option<bool>, headUrl: Option<string>, toolingUrl: Option<string>, baseUrl: Option<string>,
    focus: Option<string>, project: Option<string>, memoryGB: Option<int>, cpus: Option<int>,
    cacheKey: string, overrideCache: bool)
  {
    // What request validation has made sure of: a testcase comes with its sanitizer, harness and engine.
    predicate Validated() {
      testcaseB64.Some? || testcaseHash.Some? ==> fuzzer.Some? && sanitizer.Some? && engine.Some?
    }
  }

  datatype Refusal = BadRequest | Unprocessable | ServerError

  datatype BlobFaults = BlobFaults(query: bool, upload: bool, presign: bool)

  // What a request meets: the stored tasks and blobs, and what fails while it is worked out.
  datatype Env = Env(
    tasks: map<nat, Task>, stored: set<string>, decode: string -> Option<Bytes>, hash: Bytes -> string,
    lookupFails: bool, presignFails: bool, testcaseFaults: BlobFaults, patchFaults: BlobFaults, noClient: bool)

  function EncodedLength(n: nat): nat { (n + 2) / 3 * 4 }

  const MAX_TRIGGER: nat := EncodedLength(2097152)
  const MAX_PATCH: nat := EncodedLength(102400)

  /* ------------------------------------------------------- what is asked for */

  // The stored task, the empty one without an identifier, or why the request is refused.
  function TaskOf(env: Env, r: JobArgs): Result<Task, Refusal> {
    if r.taskId.None? then Ok(NO_TASK)
    else if r.taskId.value.Malformed? then Error(BadRequest)
    else if env.lookupFails then Error(ServerError)
    else if r.taskId.value.uuid !in env.tasks then Error(BadRequest)
    else if env.presignFails then Error(ServerError)
    else
      var task := env.tasks[r.taskId.value.uuid];
      if task.delta && task.base.None? then Error(ServerError) else Ok(task)
  }

  // The blob of a testcase or patch: a hash must name a stored blob even if data is given, and data wins.
  function BlobOf(env: Env, name: Option<string>, b64: Option<string>, limit: nat, f: BlobFaults)
    : Result<Option<string>, Refusal>
  {
    if name.Some? && f.query then Error(ServerError)
    else if name.Some? && name.value !in env.stored then Error(Unprocessable)
    else if b64.Some? && (|b64.value| > limit || env.decode(b64.value).None?) then Error(BadRequest)
    else if b64.Some? && f.upload then Error(ServerError)
    else if (name.Some? || b64.Some?) && f.presign then Error(ServerError)
    else if b64.Some? then Ok(Some(env.hash(env.decode(b64.value).value)))
    else Ok(name)
  }

  function OriginOf(url: Option<string>, task: Source, hasTask: bool): Origin {
    if url.Some? then Link(url.value) else if hasTask then Archive(task.url, task.sha256) else Link("")
  }

  function WorkOf(r: JobArgs, task: Task, testcase: Option<string>, patch: Option<string>): Work
    requires testcase.Some? ==> r.fuzzer.Some? && r.sanitizer.Some? && r.engine.Some?
  {
    Work(OriginOf(r.headUrl, task.head, r.taskId.Some?), OriginOf(r.toolingUrl, task.tooling, r.taskId.Some?),
         if r.baseUrl.Some? then Some(Link(r.baseUrl.value))
         else if task.base.Some? then Some(Archive(task.base.value.url, task.base.value.sha256)) else None,
         if r.baseUrl.Some? then r.baseUrl.value != "" else task.delta,
         if r.focus.Some? then r.focus.value else task.focus,
         if r.project.Some? then r.project.value else task.project,
         r.architecture, r.skipPatchTests == Some(true),
         if testcase.None? then None
         else Some(Testcase(testcase.value, r.sanitizer.value, r.fuzzer.value, r.engine.value)),
         patch)
  }

  function Resolve(env: Env, r: JobArgs): (res: Result<Work, Refusal>)
    requires r.Validated()
    ensures res.Ok? ==> res.value.Valid()
  {
    var task := TaskOf(env, r);
    var testcase := BlobOf(env, r.testcaseHash, r.testcaseB64, MAX_TRIGGER, env.testcaseFaults);
    var patch := BlobOf(env, r.patchHash, r.patchB64, MAX_PATCH, env.patchFaults);
    if task.Error? then Error(task.error)
    else if testcase.Error? then Error(testcase.error)
    else if patch.Error? then Error(patch.error)
    else if env.noClient then Error(ServerError)
    else Ok(WorkOf(r, task.value, testcase.value, patch.value))
  }

  // Memory and processors go to the cluster, and are in neither the key nor the arguments.
  datatype Prepared = Prepared(args: seq<Word>, cacheToHash: seq<string>, memoryGB: int, cpus: int)

  function Or<T>(given: Option<T>, default: T): T { if given.Some? then given.value else default }

  method FetchTask(env: Env, r: JobArgs) returns (res: Result<Task, Refusal>)
    ensures res == TaskOf(env, r)
  {
    if r.taskId.None? {
      return Ok(NO_TASK);
    }
    if r.taskId.value.Malformed? {
      return Error(BadRequest);
    }
    if env.lookupFails {
      return Error(ServerError);
    }
    if r.taskId.value.uuid !in env.tasks {
      return Error(BadRequest);
    }
    var task := env.tasks[r.taskId.value.uuid];
    if env.presignFails || (task.delta && task.base.None?) {
      return Error(ServerError);
    }
    res := Ok(task);
  }

  method FindBlob(env: Env, name: Option<string>, b64: Option<string>, limit: nat, f: BlobFaults)
    returns (res: Result<Option<string>, Refusal>)
    ensures res == BlobOf(env, name, b64, limit, f)
  {
    var blob := name;
    if blob.Some? {
      if f.query {
        return Error(ServerError);
      }
      if blob.value !in env.stored {
        return Error(Unprocessable);
      }
    }
    if b64.Some? {
      if |b64.value| > limit {
        return Error(BadRequest);
      }
      var data := env.decode(b64.value);
      if data.None? {
        return Error(BadRequest);
      }
      if f.upload {
        return Error(ServerError);
      }
      blob := Some(env.hash(data.value));
    }
    if blob.Some? && f.presign {
      return Error(ServerError);
    }
    res := Ok(blob);
  }

  method Override(r: JobArgs, found: Task) returns (task: Task)
    ensures task == found.(project := Or(r.project, found.project), focus := Or(r.focus, found.focus),
                           memoryGB := Or(r.memoryGB, found.memoryGB), cpus := Or(r.cpus, found.cpus))
  {
    task := found;
    if r.project.Some? {
      task := task.(project := r.project.value);
    }
    if r.focus.Some? {
      task := task.(focus := r.focus.value);
    }
    if r.memoryGB.Some? {
      task := task.(memoryGB := r.memoryGB.value);
    }
    if r.cpus.Some? {
      task := task.(cpus := r.cpus.value);
    }
  }

  // A URL in the request replaces the link, and stands for itself in the key; else the archive's hash does.
  method Choose(url: Option<string>, link: Word, sha256: string, cacheToHash: seq<string>)
    returns (link': Word, cacheToHash': seq<string>)
    ensures link' == if url.Some? then Text(url.value) else link
    ensures cacheToHash' == cacheToHash + [Or(url, sha256)]
  {
    link' := link;
    if url.Some? {
      link' := Text(url.value);
      cacheToHash' := cacheToHash + [url.value];
    } else {
      cacheToHash' := cacheToHash + [sha256];
    }
  }

  // The links to a task's sources; a base source only for a delta task.
  method SourceLinks(task: Task, hasTask: bool) returns (head: Word, tooling: Word, base: Word)
    requires task.delta ==> task.base.Some?
    ensures head == LinkTo(OriginOf(None, task.head, hasTask))
    ensures tooling == LinkTo(OriginOf(None, task.tooling, hasTask))
    ensures base == if hasTask && task.delta then SourceLink(task.base.value.url, task.base.value.sha256) else Text("")
  {
    head, tooling, base := Text(""), Text(""), Text("");
    if hasTask {
      head := SourceLink(task.head.url, task.head.sha256);
      tooling := SourceLink(task.tooling.url, task.tooling.sha256);
      if task.delta {
        base := SourceLink(task.base.value.url, task.base.value.sha256);
      }
    }
  }

  // The part that needs no blob. The request's values override the task's.
  method Front(serverKey: string, r: JobArgs, found: Task)
    returns (args: seq<Word>, cacheToHash: seq<string>, memoryGB: int, cpus: int)
    requires found.delta ==> found.base.Some?
    requires r.taskId.None? ==> found == NO_TASK
    ensures var w := WorkOf(r, found, None, None);
            args == FrontArguments(w) && cacheToHash == FrontParts(serverKey, r.cacheKey, w)
    ensures memoryGB == Or(r.memoryGB, found.memoryGB) && cpus == Or(r.cpus, found.cpus)
  {
    ghost var w := WorkOf(r, found, None, None);
    var head, tooling, base := SourceLinks(found, r.taskId.Some?);
    var task := Override(r, found);
    cacheToHash := [serverKey, r.cacheKey];
    head, cacheToHash := Choose(r.headUrl, head, task.head.sha256, cacheToHash);
    assert head == LinkTo(w.head) && cacheToHash == [serverKey, r.cacheKey, Component(w.head)];
    tooling, cacheToHash := Choose(r.toolingUrl, tooling, task.tooling.sha256, cacheToHash);
    assert tooling == LinkTo(w.tooling);
    assert cacheToHash == [serverKey, r.cacheKey, Component(w.head), Component(w.tooling)];
    if r.baseUrl.Some? || task.base.Some? {
      base, cacheToHash := Choose(r.baseUrl, base, if task.base.Some? then task.base.value.sha256 else "", cacheToHash);
    }
    assert cacheToHash == [serverKey, r.cacheKey, Component(w.head), Component(w.tooling)] + BaseParts(w.base);
    var skipPatchTests := r.skipPatchTests == Some(true);
    cacheToHash := cacheToHash + [task.focus, task.project] + [FormatBool(skipPatchTests)];
    assert cacheToHash == FrontParts(serverKey, r.cacheKey, w);
    args := FrontWords(r, task, head, tooling, base, skipPatchTests);
    assert base != Text("") <==> w.passesBase;
    assert w.passesBase ==> base == LinkTo(w.base.value);
    memoryGB, cpus := task.memoryGB, task.cpus;
  }

  method FrontWords(r: JobArgs, task: Task, head: Word, tooling: Word, base: Word, skipPatchTests: bool)
    returns (args: seq<Word>)
    ensures args == [Flag(HeadRepoUrl), head, Flag(OssFuzzUrl), tooling, Flag(Focus), Text(task.focus),
                     Flag(ProjectName), Text(task.project), Flag(Architecture), Text(r.architecture),
                     Flag(ExportResults)]
                    + SkipArguments(skipPatchTests) + (if base != Text("") then [Flag(BaseRepoUrl), base] else [])
  {
    args := [Flag(HeadRepoUrl), head, Flag(OssFuzzUrl), tooling, Flag(Focus), Text(task.focus),
             Flag(ProjectName), Text(task.project), Flag(Architecture), Text(r.architecture), Flag(ExportResults)];
    if skipPatchTests {
      args := args + [Flag(SkipPatchTests)];
    }
    if base != Text("") {
      args := args + [Flag(BaseRepoUrl), base];
    }
  }

  // Grows the arguments and the list to hash side by side.
  method Prepare(env: Env, serverKey: string, r: JobArgs) returns (res: Result<Prepared, Refusal>)
    requires r.Validated()
    ensures match Resolve(env, r)
            case Error(e) => res == Error(e)
            case Ok(w) => res == Ok(Prepared(Arguments(w), KeyParts(serverKey, r.cacheKey, w),
                                             Or(r.memoryGB, TaskOf(env, r).value.memoryGB),
                                             Or(r.cpus, TaskOf(env, r).value.cpus)))
  {
    var found := FetchTask(env, r);
    if found.Error? {
      return Error(found.error);
    }
    var args, cacheToHash, memoryGB, cpus := Front(serverKey, r, found.value);
    res := AddBlobs(env, r, args, cacheToHash, memoryGB, cpus);
  }

  method AddBlobs(env: Env, r: JobArgs, args0: seq<Word>, cacheToHash0: seq<string>, memoryGB: int, cpus: int)
    returns (res: Result<Prepared, Refusal>)
    requires r.Validated()
    ensures var testcase := BlobOf(env, r.testcaseHash, r.testcaseB64, MAX_TRIGGER, env.testcaseFaults);
            var patch := BlobOf(env, r.patchHash, r.patchB64, MAX_PATCH, env.patchFaults);
            if testcase.Error? then res == Error(testcase.error)
            else if patch.Error? then res == Error(patch.error)
            else if env.noClient then res == Error(ServerError)
            else
              var w := WorkOf(r, NO_TASK, testcase.value, patch.value);
              res == Ok(Prepared(args0 + TestcaseArguments(w.testcase) + PatchArguments(w.patch),
                                 cacheToHash0 + TestcaseParts(w.testcase, r.architecture) + PatchParts(w.patch),
                                 memoryGB, cpus))
  {
    var args, cacheToHash := args0, cacheToHash0;
    var testcase := FindBlob(env, r.testcaseHash, r.testcaseB64, MAX_TRIGGER, env.testcaseFaults);
    if testcase.Error? {
      return Error(testcase.error);
    }
    if testcase.value.Some? {
      var blob := testcase.value.value;
      args := args + [Flag(TriggerUrl), BlobLink(blob), Flag(Sanitizer), Text(r.sanitizer.value),
                      Flag(HarnessName), Text(r.fuzzer.value), Flag(Engine), Text(r.engine.value)];
      cacheToHash := cacheToHash
        + [TESTCASE, blob, r.architecture, r.sanitizer.value, r.fuzzer.value, r.engine.value];
    }
    ghost var t := WorkOf(r, NO_TASK, testcase.value, None).testcase;
    assert args == args0 + TestcaseArguments(t);
    assert cacheToHash == cacheToHash0 + TestcaseParts(t, r.architecture);
    var patch := FindBlob(env, r.patchHash, r.patchB64, MAX_PATCH, env.patchFaults);
    if patch.Error? {
      return Error(patch.error);
    }
    if patch.value.Some? {
      args := args + [Flag(AllowedLanguages), Text("c"), Flag(AllowedLanguages), Text("java"),
                      Flag(PatchUrl), BlobLink(patch.value.value)];
      cacheToHash := cacheToHash + [PATCH, patch.value.value];
    }
    if env.noClient {
      return Error(ServerError);
    }
    ghost var w := WorkOf(r, NO_TASK, testcase.value, patch.value);
    assert args == args0 + TestcaseArguments(w.testcase) + PatchArguments(w.patch);
    assert cacheToHash == cacheToHash0 + TestcaseParts(w.testcase, r.architecture) + PatchParts(w.patch);
    res := Ok(Prepared(args, cacheToHash, memoryGB, cpus));
  }

  // Every given URL has a colon, without a task both URLs are given, and a task has a base source iff it is a
  // delta task.
  predicate TidyRequest(env: Env, r: JobArgs) {
    && (forall url :: url in {r.headUrl, r.toolingUrl, r.baseUrl} && url.Some? ==> ':' in url.value)
    && (r.taskId.None? ==> r.headUrl.Some? && r.toolingUrl.Some?)
    && (forall id :: id in env.tasks ==> TidyTask(env.tasks[id]))
  }

  predicate TidyTask(task: Task) {
    && task.delta == task.base.Some?
    && ':' !in task.head.sha256 && ':' !in task.tooling.sha256 && (task.base.Some? ==> ':' !in task.base.value.sha256)
  }

  lemma ResolvedIsTidy(env: Env, r: JobArgs)
    requires r.Validated() && TidyRequest(env, r) && Resolve(env, r).Ok?
    ensures Tidy(Resolve(env, r).value)
  {
    assert r.headUrl in {r.headUrl, r.toolingUrl, r.baseUrl} && r.toolingUrl in {r.headUrl, r.toolingUrl, r.baseUrl}
        && r.baseUrl in {r.headUrl, r.toolingUrl, r.baseUrl};
    if r.taskId.Some? {
      assert TidyTask(env.tasks[r.taskId.value.uuid]);
    }
  }

  /* ------------------------------------------------------- what the lookups mean */

  // The requester is to blame exactly for an identifier that is malformed or, as far as the lookup works, unknown;
  // an accepted request has the stored task, and a delta task's base source is there.
  lemma TaskMeaning(env: Env, r: JobArgs)
    ensures TaskOf(env, r) == Error(BadRequest) <==>
              r.taskId.Some? && (r.taskId.value.Id? ==> !env.lookupFails && r.taskId.value.uuid !in env.tasks)
    ensures TaskOf(env, r).Ok? && r.taskId.Some? ==>
              && r.taskId.value.Id? && r.taskId.value.uuid in env.tasks
              && TaskOf(env, r).value == env.tasks[r.taskId.value.uuid]
    ensures TaskOf(env, r).Ok? ==> (TaskOf(env, r).value.delta ==> TaskOf(env, r).value.base.Some?)
    ensures TaskOf(env, r) != Error(Unprocessable)
    ensures TaskOf(env, r).Ok? <==>
              r.taskId.Some? ==>
                && r.taskId.value.Id? && !env.lookupFails && r.taskId.value.uuid in env.tasks && !env.presignFails
                && (env.tasks[r.taskId.value.uuid].delta ==> env.tasks[r.taskId.value.uuid].base.Some?)
    ensures r.taskId.None? ==> TaskOf(env, r) == Ok(NO_TASK)
  {
  }

  // The data fits and can be read, and is stored already.
  predicate Known(env: Env, b64: string, limit: nat) {
    |b64| <= limit && env.decode(b64).Some? && env.hash(env.decode(b64).value) in env.stored
  }

  function HashOf(env: Env, b64: string): string
    requires env.decode(b64).Some?
  {
    env.hash(env.decode(b64).value)
  }

  // An accepted blob is stored already or is the hash of the data given; there is one exactly if either form is given.
  lemma BlobMeaning(env: Env, name: Option<string>, b64: Option<string>, limit: nat, f: BlobFaults)
    ensures var res := BlobOf(env, name, b64, limit, f);
            && (res.Ok? ==> (res.value.Some? <==> name.Some? || b64.Some?))
            && (res.Ok? && b64.Some? ==>
                  env.decode(b64.value).Some? && res.value == Some(HashOf(env, b64.value)))
            && (res.Ok? && b64.None? && name.Some? ==> res.value == name && name.value in env.stored)
            && (res == Error(Unprocessable) <==> name.Some? && !f.query && name.value !in env.stored)
            && (res == Error(BadRequest) <==>
                  && (name.Some? ==> !f.query && name.value in env.stored)
                  && b64.Some? && (|b64.value| > limit || env.decode(b64.value).None?))
  {
  }

  // The request with hashes in place of its data.
  function ByHash(env: Env, r: JobArgs): JobArgs
    requires r.testcaseB64.Some? ==> env.decode(r.testcaseB64.value).Some?
    requires r.patchB64.Some? ==> env.decode(r.patchB64.value).Some?
  {
    r.(testcaseHash := if r.testcaseB64.Some? then Some(HashOf(env, r.testcaseB64.value)) else None,
       patchHash := if r.patchB64.Some? then Some(HashOf(env, r.patchB64.value)) else None,
       testcaseB64 := None, patchB64 := None)
  }

  // Giving data again or naming it by its hash asks for the same work, and so for the same key and arguments.
  lemma DataOrHash(env: Env, r: JobArgs)
    requires r.Validated() && r.testcaseHash.None? && r.patchHash.None?
    requires r.testcaseB64.Some? ==> Known(env, r.testcaseB64.value, MAX_TRIGGER)
    requires r.patchB64.Some? ==> Known(env, r.patchB64.value, MAX_PATCH)
    requires !env.testcaseFaults.query && !env.testcaseFaults.upload
    requires !env.patchFaults.query && !env.patchFaults.upload
    ensures var named := ByHash(env, r);
            named.Validated() && Resolve(env, named) == Resolve(env, r)
  {
    var named := ByHash(env, r);
    assert TaskOf(env, named) == TaskOf(env, r);
    assert BlobOf(env, named.testcaseHash, None, MAX_TRIGGER, env.testcaseFaults)
        == BlobOf(env, None, r.testcaseB64, MAX_TRIGGER, env.testcaseFaults);
    assert BlobOf(env, named.patchHash, None, MAX_PATCH, env.patchFaults)
        == BlobOf(env, None, r.patchB64, MAX_PATCH, env.patchFaults);
  }

  // What is stored, and what hashing data gives, are names of blobs.
  ghost predicate NamesBlobs(names: string -> bool, env: Env) {
    (forall name :: name in env.stored ==> names(name)) && (forall data :: names(env.hash(data)))
  }

  lemma ResolvedIsNamed(names: string -> bool, env: Env, r: JobArgs)
    requires r.Validated() && NamesBlobs(names, env) && Resolve(env, r).Ok?
    ensures Named(names, Resolve(env, r).value)
  {
    BlobMeaning(env, r.testcaseHash, r.testcaseB64, MAX_TRIGGER, env.testcaseFaults);
    BlobMeaning(env, r.patchHash, r.patchB64, MAX_PATCH, env.patchFaults);
  }

  // The request, without a task, that asks for this work.
  function RequestFor(w: Work, requestKey: string, overrides: bool): JobArgs
    requires Askable(w)
  {
    var t := w.testcase;
    JobArgs(None, w.architecture,
            if t.Some? then Some(t.value.fuzzer) else None, if t.Some? then Some(t.value.sanitizer) else None,
            if t.Some? then Some(t.value.engine) else None,
            None, if t.Some? then Some(t.value.blob) else None, None, w.patch,
            Some(w.skipPatchTests), Some(w.head.url), Some(w.tooling.url), None, Some(w.focus), Some(w.project),
            Some(0), Some(0), requestKey, overrides)
  }

  // Any such work over stored blobs can be asked for.
  lemma AskedByRequest(env: Env, w: Work, requestKey: string, overrides: bool)
    requires Askable(w) && Named(name => name in env.stored, w) && !env.noClient
    requires env.testcaseFaults == BlobFaults(false, false, false) == env.patchFaults
    ensures var r := RequestFor(w, requestKey, overrides);
            r.Validated() && r.cacheKey == requestKey && Resolve(env, r) == Ok(w)
  {
  }

  // A request is resolved exactly when its task, its testcase and its patch are found and there is a cluster; the
  // first of them that is not gives the refusal.
  lemma ResolveMeans(env: Env, r: JobArgs)
    requires r.Validated()
    ensures var task := TaskOf(env, r);
            var testcase := BlobOf(env, r.testcaseHash, r.testcaseB64, MAX_TRIGGER, env.testcaseFaults);
            var patch := BlobOf(env, r.patchHash, r.patchB64, MAX_PATCH, env.patchFaults);
            && (Resolve(env, r).Ok? <==> task.Ok? && testcase.Ok? && patch.Ok? && !env.noClient)
            && (task.Error? ==> Resolve(env, r) == Error(task.error))
            && (task.Ok? && testcase.Error? ==> Resolve(env, r) == Error(testcase.error))
            && (task.Ok? && testcase.Ok? && patch.Error? ==> Resolve(env, r) == Error(patch.error))
            && (Resolve(env, r).Ok? ==>
                  && (Resolve(env, r).value.patch == patch.value)
                  && (Resolve(env, r).value.testcase.Some? == testcase.value.Some?)
                  && (testcase.value.Some? ==> Resolve(env, r).value.testcase.value.blob == testcase.value.value))
  {
  }

  // A blob is found exactly when nothing fails, a given name is stored, and given data is short enough and decodes.
  lemma BlobFound(env: Env, name: Option<string>, b64: Option<string>, limit: nat, f: BlobFaults)
    ensures BlobOf(env, name, b64, limit, f).Ok? <==>
              && (name.Some? ==> !f.query && name.value in env.stored)
              && (b64.Some? ==> |b64.value| <= limit && env.decode(b64.value).Some? && !f.upload)
              && (name.Some? || b64.Some? ==> !f.presign)
    ensures MAX_TRIGGER == 2796204 && MAX_PATCH == 136536
  {
  }

  // The request that asks for a task as it is stored.
  function Plain(id: nat, architecture: string, cacheKey: string): JobArgs {
    JobArgs(Some(Id(id)), architecture, None, None, None, None, None, None, None, None, None, None, None,
            None, None, None, None, cacheKey, false)
  }

  // It gets the task's own sources, focus and project, and the base iff it is a delta task.
  lemma PlainGetsTheTask(env: Env, id: nat, architecture: string, cacheKey: string)
    requires id in env.tasks && !env.lookupFails && !env.presignFails && !env.noClient
    requires env.tasks[id].delta ==> env.tasks[id].base.Some?
    ensures var r, task := Plain(id, architecture, cacheKey), env.tasks[id];
            && r.Validated() && Resolve(env, r).Ok?
            && var w := Resolve(env, r).value;
               && w.head == Archive(task.head.url, task.head.sha256)
               && w.tooling == Archive(task.tooling.url, task.tooling.sha256)
               && (w.base.Some? <==> task.base.Some?)
               && (w.base.Some? ==> w.base.value == Archive(task.base.value.url, task.base.value.sha256))
               && w.passesBase == task.delta && w.focus == task.focus && w.project == task.project
               && w.architecture == architecture && !w.skipPatchTests && w.testcase == None && w.patch == None
  {
  }

  // Each source a request gives overrides the task's, and nothing else.
  lemma SourcesOverride(env: Env, r: JobArgs, url: string)
    requires r.Validated() && Resolve(env, r).Ok?
    ensures var w := Resolve(env, r).value;
            && Resolve(env, r.(headUrl := Some(url))) == Ok(w.(head := Link(url)))
            && Resolve(env, r.(toolingUrl := Some(url))) == Ok(w.(tooling := Link(url)))
            && Resolve(env, r.(baseUrl := Some(url))) == Ok(w.(base := Some(Link(url)), passesBase := |url| > 0))
  {
    SameLookups(env, r, r.(headUrl := Some(url)));
    SameLookups(env, r, r.(toolingUrl := Some(url)));
    SameLookups(env, r, r.(baseUrl := Some(url)));
    assert url != "" <==> |url| > 0;
  }

  // So does each text, and the tests are skipped iff the request says so.
  lemma TextsOverride(env: Env, r: JobArgs, text: string, skip: bool)
    requires r.Validated() && Resolve(env, r).Ok?
    ensures var w := Resolve(env, r).value;
            && Resolve(env, r.(focus := Some(text))) == Ok(w.(focus := text))
            && Resolve(env, r.(project := Some(text))) == Ok(w.(project := text))
            && Resolve(env, r.(architecture := text)) == Ok(w.(architecture := text))
            && Resolve(env, r.(skipPatchTests := Some(skip))) == Ok(w.(skipPatchTests := skip))
            && (r.skipPatchTests.None? ==> !w.skipPatchTests)
  {
    SameLookups(env, r, r.(focus := Some(text)));
    SameLookups(env, r, r.(project := Some(text)));
    SameLookups(env, r, r.(architecture := text));
    SameLookups(env, r, r.(skipPatchTests := Some(skip)));
  }

  // Requests that name the same task and blobs find the same ones.
  lemma SameLookups(env: Env, r: JobArgs, other: JobArgs)
    requires r.Validated() && Resolve(env, r).Ok? && other.taskId == r.taskId
    requires other.testcaseHash == r.testcaseHash && other.testcaseB64 == r.testcaseB64
    requires other.patchHash == r.patchHash && other.patchB64 == r.patchB64
    requires other.fuzzer == r.fuzzer && other.sanitizer == r.sanitizer && other.engine == r.engine
    ensures other.Validated() && TaskOf(env, other) == TaskOf(env, r) && TaskOf(env, r).Ok?
    ensures exists testcase: Option<string>, patch: Option<string> ::
              && (testcase.Some? ==> r.fuzzer.Some? && r.sanitizer.Some? && r.engine.Some?)
              && Resolve(env, r) == Ok(WorkOf(r, TaskOf(env, r).value, testcase, patch))
              && Resolve(env, other) == Ok(WorkOf(other, TaskOf(env, r).value, testcase, patch))
  {
    var testcase := BlobOf(env, r.testcaseHash, r.testcaseB64, MAX_TRIGGER, env.testcaseFaults).value;
    var patch := BlobOf(env, r.patchHash, r.patchB64, MAX_PATCH, env.patchFaults).value;
    assert Resolve(env, r) == Ok(WorkOf(r, TaskOf(env, r).value, testcase, patch));
    assert Resolve(env, other) == Ok(WorkOf(other, TaskOf(env, r).value, testcase, patch));
  }
}
