// Finding or starting the job of a jobrunner request, and what whole runs of requests leave behind.
module JobCache {
  import opened Types
  import opened CacheKey
  import opened KeyShapes
  import CommandLine
  import EndToEnd
  import GoErrors
  import Results
  import Pipeline
  import R = JobRunner

  datatype JobRow = JobRow(id: nat, key: string)

  // An eval job in the cluster.
  datatype Started = Started(id: nat, arguments: seq<Word>, memoryGB: int, cpus: int)

  // The stored rows, oldest first, and the jobs that were ever started.
  datatype Cache = Cache(rows: seq<JobRow>, started: seq<Started>)

  const EMPTY: Cache := Cache([], [])

  datatype Faults = Faults(statement: bool, launch: Launch, commit: bool, presign: bool)

  // How keys are made: the hash, and the server's own part of the key.
  datatype Config = Config(digest: string -> string, serverKey: string)

  // A request whose work is known. The identifier is the one a new row would get.
  datatype Visit = Visit(
    id: nat, requestKey: string, work: Work, overrides: bool, memoryGB: int, cpus: int, faults: Faults)

  function KeyOf(config: Config, v: Visit): string { Key(config.digest, config.serverKey, v.requestKey, v.work) }

  predicate HasRow(rows: seq<JobRow>, key: string) { exists i :: 0 <= i < |rows| && rows[i].key == key }

  // The last row with this key.
  function Newest(rows: seq<JobRow>, key: string): (row: JobRow)
    requires HasRow(rows, key)
    ensures exists i :: 0 <= i < |rows| && row == rows[i] && row.key == key
                        && forall j :: i < j < |rows| ==> rows[j].key != key
  {
    var last := rows[|rows| - 1];
    if last.key == key then last
    else
      assert HasRow(rows[..|rows| - 1], key);
      Newest(rows[..|rows| - 1], key)
  }

  predicate Hits(config: Config, c: Cache, v: Visit) { !v.overrides && HasRow(c.rows, KeyOf(config, v)) }

  // A job is created in the cluster on the way, whether or not the transaction then succeeds.
  predicate Starts(config: Config, c: Cache, v: Visit) {
    !v.faults.statement && !Hits(config, c, v) && !v.faults.launch.Refuses?
  }

  predicate Commits(config: Config, c: Cache, v: Visit) {
    !v.faults.statement && (Hits(config, c, v) || v.faults.launch.Launches?) && !v.faults.commit
  }

  function JobOf(v: Visit): Started
    requires v.work.Valid()
  {
    Started(v.id, Arguments(v.work) + [Flag(JobIdFlag), JobId(v.id)], v.memoryGB, v.cpus)
  }

  function After(config: Config, c: Cache, v: Visit): Cache
    requires v.work.Valid()
  {
    Cache(if Commits(config, c, v) && !Hits(config, c, v) then c.rows + [JobRow(v.id, KeyOf(config, v))] else c.rows,
          if Starts(config, c, v) then c.started + [JobOf(v)] else c.started)
  }

  // The row a committed request is answered with.
  function RowFor(config: Config, c: Cache, v: Visit): JobRow {
    if Hits(config, c, v) then Newest(c.rows, KeyOf(config, v)) else JobRow(v.id, KeyOf(config, v))
  }

  // A request as it comes in: what it meets, the identifier its row would get, and what fails in the end.
  datatype Call = Call(env: R.Env, args: R.JobArgs, id: nat, faults: Faults)

  predicate Accepted(call: Call) { call.args.Validated() && R.Resolve(call.env, call.args).Ok? }

  function VisitOf(call: Call): (v: Visit)
    requires Accepted(call)
    ensures v.work.Valid()
  {
    var task := R.TaskOf(call.env, call.args).value;
    Visit(call.id, call.args.cacheKey, R.Resolve(call.env, call.args).value, call.args.overrideCache,
          R.Or(call.args.memoryGB, task.memoryGB), R.Or(call.args.cpus, task.cpus), call.faults)
  }

  // The cache after one request.
  function Served(config: Config, c: Cache, call: Call): Cache {
    if Accepted(call) then After(config, c, VisitOf(call)) else c
  }

  class Server {
    const config: Config
    var cache: Cache

    constructor (config: Config)
      ensures this.config == config && cache == EMPTY
    {
      this.config, cache := config, EMPTY;
    }

    // The query for the newest row with the key.
    method Find(key: string) returns (found: Option<JobRow>)
      ensures found == if HasRow(cache.rows, key) then Some(Newest(cache.rows, key)) else None
    {
      found := None;
      var i := 0;
      while i < |cache.rows|
        invariant 0 <= i <= |cache.rows|
        invariant found == if HasRow(cache.rows[..i], key) then Some(Newest(cache.rows[..i], key)) else None
      {
        ghost var before := cache.rows[..i];
        assert cache.rows[..i + 1][..i] == before;
        if cache.rows[i].key == key {
          found := Some(cache.rows[i]);
          assert cache.rows[..i + 1][i].key == key;
        } else if HasRow(before, key) {
          var j :| 0 <= j < |before| && before[j].key == key;
          assert cache.rows[..i + 1][j].key == key;
        }
        i := i + 1;
      }
      assert cache.rows[..|cache.rows|] == cache.rows;
    }

    method CreateEvalJob(job: Started, launch: Launch) returns (ok: bool)
      modifies this
      ensures ok == launch.Launches?
      ensures cache == if launch.Refuses? then old(cache) else old(cache).(started := old(cache).started + [job])
    {
      if !launch.Refuses? {
        cache := cache.(started := cache.started + [job]);
      }
      ok := launch.Launches?;
    }

    // The transaction: the row, then the job, undoing the row if either the job or the commit fails.
    method FindOrCreate(id: nat, key: string, overrides: bool, job: Started, faults: Faults)
      returns (row: Option<JobRow>)
      modifies this
      ensures var before := old(cache);
              var hit := !overrides && HasRow(before.rows, key);
              var commits := !faults.statement && (hit || faults.launch.Launches?) && !faults.commit;
              && cache.rows == (if commits && !hit then before.rows + [JobRow(id, key)] else before.rows)
              && cache.started == (if !faults.statement && !hit && !faults.launch.Refuses? then before.started + [job]
                                   else before.started)
              && row == (if !commits then None else if hit then Some(Newest(before.rows, key))
                         else Some(JobRow(id, key)))
    {
      var rows := cache.rows;
      if faults.statement {
        return None;
      }
      var found := None;
      if !overrides {
        found := Find(key);
      }
      var rowsAffected := 0;
      if found.None? {
        cache := cache.(rows := cache.rows + [JobRow(id, key)]);
        found := Some(JobRow(id, key));
        rowsAffected := 1;
      }
      if rowsAffected == 1 {
        var ok := CreateEvalJob(job, faults.launch);
        if !ok {
          cache := cache.(rows := rows);
          return None;
        }
      }
      if faults.commit {
        cache := cache.(rows := rows);
        return None;
      }
      row := found;
    }

    // One request. A refused one changes nothing; links that cannot be presigned spoil only the answer.
    method DoJobWork(env: R.Env, r: R.JobArgs, id: nat, faults: Faults) returns (res: Result<JobRow, R.Refusal>)
      requires r.Validated()
      modifies this
      ensures cache == Served(config, old(cache), Call(env, r, id, faults))
      ensures match R.Resolve(env, r)
              case Error(e) => res == Error(e)
              case Ok(w) =>
                var v := VisitOf(Call(env, r, id, faults));
                res == (if Commits(config, old(cache), v) && !faults.presign then Ok(RowFor(config, old(cache), v))
                        else Error(R.ServerError))
    {
      var prepared := R.Prepare(env, config.serverKey, r);
      if prepared.Error? {
        return Error(prepared.error);
      }
      var p := prepared.value;
      var key := config.digest(Join(p.cacheToHash));
      var job := Started(id, p.args + [Flag(JobIdFlag), JobId(id)], p.memoryGB, p.cpus);
      var row := FindOrCreate(id, key, r.overrideCache, job, faults);
      if row.None? || faults.presign {
        return Error(R.ServerError);
      }
      res := Ok(row.value);
    }
  }

  /* ------------------------------------------------------- whole runs */

  predicate ValidAll(visits: seq<Visit>) { forall i :: 0 <= i < |visits| ==> visits[i].work.Valid() }

  // The cache after the visits, one at a time.
  function Run(config: Config, visits: seq<Visit>): Cache
    requires ValidAll(visits)
  {
    if visits == [] then EMPTY
    else After(config, Run(config, visits[..|visits| - 1]), visits[|visits| - 1])
  }

  function StartedIds(started: seq<Started>): seq<nat> {
    if started == [] then [] else StartedIds(started[..|started| - 1]) + [started[|started| - 1].id]
  }

  function RowIds(rows: seq<JobRow>): seq<nat> {
    if rows == [] then [] else RowIds(rows[..|rows| - 1]) + [rows[|rows| - 1].id]
  }

  // The jobs that were started but whose row was rolled back.
  function Orphans(config: Config, visits: seq<Visit>): seq<nat>
    requires ValidAll(visits)
  {
    if visits == [] then []
    else
      var before, v := visits[..|visits| - 1], visits[|visits| - 1];
      var c := Run(config, before);
      Orphans(config, before) + (if Starts(config, c, v) && !Commits(config, c, v) then [v.id] else [])
  }

  function OneIf(b: bool, id: nat): seq<nat> { if b then [id] else [] }

  predicate Creates(config: Config, c: Cache, v: Visit) { Commits(config, c, v) && !Hits(config, c, v) }

  lemma OneMore(config: Config, c: Cache, v: Visit)
    requires v.work.Valid()
    ensures StartedIds(After(config, c, v).started) == StartedIds(c.started) + OneIf(Starts(config, c, v), v.id)
    ensures RowIds(After(config, c, v).rows) == RowIds(c.rows) + OneIf(Creates(config, c, v), v.id)
  {
    var c' := After(config, c, v);
    if Starts(config, c, v) {
      assert c'.started[..|c.started|] == c.started;
    }
    if Creates(config, c, v) {
      assert c'.rows[..|c.rows|] == c.rows;
    }
  }

  // Every job that was started has a committed row or is an orphan, and nothing else has a row.
  lemma {:induction false} JobsAreConserved(config: Config, visits: seq<Visit>)
    requires ValidAll(visits)
    ensures multiset(StartedIds(Run(config, visits).started))
         == multiset(RowIds(Run(config, visits).rows)) + multiset(Orphans(config, visits))
    decreases |visits|
  {
    if visits != [] {
      var before, v := visits[..|visits| - 1], visits[|visits| - 1];
      JobsAreConserved(config, before);
      var c := Run(config, before);
      OneMore(config, c, v);
      var starts, creates := Starts(config, c, v), Creates(config, c, v);
      assert Orphans(config, visits) == Orphans(config, before) + OneIf(starts && !creates, v.id);
      assert creates ==> starts;
      SplitSum(StartedIds(c.started), RowIds(c.rows), Orphans(config, before), v.id, starts, creates);
    }
  }

  lemma SplitSum(all: seq<nat>, left: seq<nat>, right: seq<nat>, id: nat, some: bool, toLeft: bool)
    requires multiset(all) == multiset(left) + multiset(right) && (toLeft ==> some)
    ensures multiset(all + OneIf(some, id))
         == multiset(left + OneIf(toLeft, id)) + multiset(right + OneIf(some && !toLeft, id))
  {
  }

  // A miss whose job is started although an error is reported, or whose commit fails after the launch.
  predicate LosesRow(config: Config, c: Cache, v: Visit) {
    && !v.faults.statement && !Hits(config, c, v)
    && (v.faults.launch.Unconfirmed? || (v.faults.launch.Launches? && v.faults.commit))
  }

  predicate NoneLost(config: Config, visits: seq<Visit>)
    requires ValidAll(visits)
  {
    forall k :: 0 <= k < |visits| ==> !LosesRow(config, Run(config, visits[..k]), visits[k])
  }

  lemma NoneLostSoFar(config: Config, visits: seq<Visit>)
    requires ValidAll(visits) && visits != []
    ensures var before := visits[..|visits| - 1];
            NoneLost(config, visits) <==>
            NoneLost(config, before) && !LosesRow(config, Run(config, before), visits[|visits| - 1])
  {
    var before := visits[..|visits| - 1];
    forall k | 0 <= k < |before|
      ensures before[..k] == visits[..k] && before[k] == visits[k]
    {
    }
    if NoneLost(config, before) && !LosesRow(config, Run(config, before), visits[|visits| - 1]) {
      forall k | 0 <= k < |visits|
        ensures !LosesRow(config, Run(config, visits[..k]), visits[k])
      {
        if k < |before| {
          assert !LosesRow(config, Run(config, before[..k]), before[k]);
        }
      }
    }
  }

  lemma LostIsOrphaned(config: Config, c: Cache, v: Visit)
    ensures LosesRow(config, c, v) <==> Starts(config, c, v) && !Commits(config, c, v)
  {
  }

  lemma {:induction false} OrphansAreLost(config: Config, visits: seq<Visit>)
    requires ValidAll(visits)
    ensures Orphans(config, visits) == [] <==> NoneLost(config, visits)
    decreases |visits|
  {
    if visits != [] {
      var before, v := visits[..|visits| - 1], visits[|visits| - 1];
      OrphansAreLost(config, before);
      NoneLostSoFar(config, visits);
      LostIsOrphaned(config, Run(config, before), v);
    }
  }

  // Rows and started jobs are the same list exactly when no miss loses its row.
  lemma {:induction false} RowsAreJobs(config: Config, visits: seq<Visit>)
    requires ValidAll(visits)
    ensures StartedIds(Run(config, visits).started) == RowIds(Run(config, visits).rows) <==> NoneLost(config, visits)
    decreases |visits|
  {
    OrphansAreLost(config, visits);
    JobsAreConserved(config, visits);
    if Orphans(config, visits) == [] {
      NoOrphansSameIds(config, visits);
    } else {
      assert Orphans(config, visits)[0] in multiset(Orphans(config, visits));
      assert |multiset(Orphans(config, visits))| > 0;
    }
  }

  lemma {:induction false} NoOrphansSameIds(config: Config, visits: seq<Visit>)
    requires ValidAll(visits) && Orphans(config, visits) == []
    ensures StartedIds(Run(config, visits).started) == RowIds(Run(config, visits).rows)
    decreases |visits|
  {
    if visits != [] {
      var before, v := visits[..|visits| - 1], visits[|visits| - 1];
      NoOrphansSameIds(config, before);
      OneMore(config, Run(config, before), v);
    }
  }

  // An instance: the one request starts its job, the commit fails, and the job is left without a row.
  lemma CommitLostAfterLaunch(config: Config, v: Visit)
    requires v.work.Valid() && v.faults == Faults(false, Launches, true, v.faults.presign)
    ensures Run(config, [v]) == Cache([], [JobOf(v)]) && !NoneLost(config, [v])
  {
    var one := [v];
    assert one[..|one| - 1] == [];
    assert Run(config, one) == After(config, EMPTY, v);
    RowsAreJobs(config, one);
    assert StartedIds([JobOf(v)]) == StartedIds([]) + [v.id];
  }

  // The visits for this key that succeeded, in order.
  function Successes(config: Config, visits: seq<Visit>, key: string): seq<Visit>
    requires ValidAll(visits)
  {
    if visits == [] then []
    else
      var before, v := visits[..|visits| - 1], visits[|visits| - 1];
      Successes(config, before, key)
      + (if KeyOf(config, v) == key && Commits(config, Run(config, before), v) then [v] else [])
  }

  function Overriding(visits: seq<Visit>): nat {
    if visits == [] then 0
    else Overriding(visits[..|visits| - 1]) + Bit(visits[|visits| - 1].overrides)
  }

  function CountRows(rows: seq<JobRow>, key: string): nat {
    if rows == [] then 0
    else CountRows(rows[..|rows| - 1], key) + Bit(rows[|rows| - 1].key == key)
  }

  lemma {:induction false} CountedMeansHas(rows: seq<JobRow>, key: string)
    ensures CountRows(rows, key) > 0 <==> HasRow(rows, key)
    decreases |rows|
  {
    if rows != [] {
      var before := rows[..|rows| - 1];
      CountedMeansHas(before, key);
      if HasRow(before, key) {
        var i :| 0 <= i < |before| && before[i].key == key;
        assert rows[i].key == key;
      }
      if HasRow(rows, key) && rows[|rows| - 1].key != key {
        var i :| 0 <= i < |rows| && rows[i].key == key;
        assert before[i].key == key;
      }
    }
  }

  lemma OneMoreRow(config: Config, c: Cache, v: Visit, key: string)
    requires v.work.Valid()
    ensures CountRows(After(config, c, v).rows, key)
         == CountRows(c.rows, key) + Bit(Creates(config, c, v) && KeyOf(config, v) == key)
  {
    if Creates(config, c, v) {
      assert After(config, c, v).rows[..|c.rows|] == c.rows;
    }
  }

  lemma OneMoreSuccess(successes: seq<Visit>, v: Visit)
    ensures Overriding(successes + [v]) == Overriding(successes) + Bit(v.overrides)
    ensures (successes + [v])[0] == if successes == [] then v else successes[0]
  {
    assert (successes + [v])[..|successes|] == successes;
  }

  // One for each override, and one more if the first was not an override.
  predicate Tally(rows: nat, successes: seq<Visit>) {
    && rows == Overriding(successes) + Bit(successes != [] && !successes[0].overrides)
    && (successes == [] <==> rows == 0)
  }

  lemma TallyOneMore(rows: nat, successes: seq<Visit>, v: Visit)
    requires Tally(rows, successes)
    ensures Tally(rows + Bit(v.overrides || rows == 0), successes + [v])
  {
    OneMoreSuccess(successes, v);
  }

  lemma OneMoreOrNot(config: Config, visits: seq<Visit>, key: string)
    requires ValidAll(visits) && visits != []
    ensures var before, v := visits[..|visits| - 1], visits[|visits| - 1];
            Successes(config, visits, key)
            == if KeyOf(config, v) == key && Commits(config, Run(config, before), v)
               then Successes(config, before, key) + [v] else Successes(config, before, key)
  {
  }

  // A key has a row for each successful override, and one more if its first success was not an override.
  lemma {:induction false} RowsPerKey(config: Config, visits: seq<Visit>, key: string)
    requires ValidAll(visits)
    ensures Tally(CountRows(Run(config, visits).rows, key), Successes(config, visits, key))
    decreases |visits|
  {
    if visits != [] {
      var before, v := visits[..|visits| - 1], visits[|visits| - 1];
      RowsPerKey(config, before, key);
      var c := Run(config, before);
      OneMoreRow(config, c, v, key);
      TallyOneMore(CountRows(c.rows, key), Successes(config, before, key), v);
      CountedMeansHas(c.rows, key);
      OneMoreOrNot(config, visits, key);
    }
  }

  // The visit at k created the row, and started the row's job with its own arguments.
  predicate CreatedBy(config: Config, visits: seq<Visit>, row: JobRow, k: nat)
    requires ValidAll(visits)
  {
    && k < |visits| && row == JobRow(visits[k].id, KeyOf(config, visits[k]))
    && JobOf(visits[k]) in Run(config, visits).started
  }

  lemma {:induction false} RowsHaveCreators(config: Config, visits: seq<Visit>, row: JobRow) returns (k: nat)
    requires ValidAll(visits) && row in Run(config, visits).rows
    ensures CreatedBy(config, visits, row, k)
    decreases |visits|
  {
    var before, v := visits[..|visits| - 1], visits[|visits| - 1];
    var c := Run(config, before);
    if row in c.rows {
      k := RowsHaveCreators(config, before, row);
    } else {
      k := |visits| - 1;
    }
  }

  /* ------------------------------------------------------- the started worker */

  // A started job is given its visit's work, its resources and, under the job flag and no other identifier, its
  // own identifier: its worker reports for that job.
  lemma StartedForItsRow(v: Visit, flag: Flag)
    requires v.work.Valid() && CommandLine.Valued(flag)
    ensures var words := JobOf(v).arguments;
            && CommandLine.ValueOf(words, flag)
               == (if flag == JobIdFlag then Some(JobId(v.id)) else CommandLine.ValueFor(v.work, flag))
            && EndToEnd.Identity(CommandLine.FlagsGiven(words)) == (GenericJob, Id(v.id))
    ensures JobOf(v).id == v.id && JobOf(v).memoryGB == v.memoryGB && JobOf(v).cpus == v.cpus
  {
    JobWordGiven(v, flag);
    JobWordGiven(v, JobIdFlag);
    JobWordGiven(v, PovIdFlag);
    JobWordGiven(v, PatchIdFlag);
  }

  lemma JobWordGiven(v: Visit, flag: Flag)
    requires v.work.Valid() && CommandLine.Valued(flag)
    ensures CommandLine.ValueOf(JobOf(v).arguments, flag)
         == if flag == JobIdFlag then Some(JobId(v.id)) else CommandLine.ValueFor(v.work, flag)
  {
    CommandLine.ArgumentsGive(v.work, flag);
    CommandLine.LastWord(v.work, flag);
    CommandLine.PairGives(JobIdFlag, JobId(v.id), flag);
    LastArgument(v.work, flag);
    CommandLine.ValueInParts(Arguments(v.work), [Flag(JobIdFlag), JobId(v.id)], flag);
  }

  lemma LastArgument(w: Work, flag: Flag)
    requires w.Valid() && CommandLine.Valued(flag)
    ensures Arguments(w)[|Arguments(w)| - 1] != Flag(flag)
  {
    CommandLine.LastWord(w, flag);
    if w.patch.Some? {
      var words := PatchArguments(w.patch);
      assert Arguments(w)[|Arguments(w)| - 1] == words[|words| - 1] == BlobLink(w.patch.value);
    } else {
      assert Arguments(w) == FrontArguments(w) + TestcaseArguments(w.testcase);
    }
  }

  // A request's job is started with the request's memory and processors, else its task's, else none.
  lemma ResourcesOfCall(call: Call)
    requires Accepted(call)
    ensures var job, args := JobOf(VisitOf(call)), call.args;
            && (args.memoryGB.Some? ==> job.memoryGB == args.memoryGB.value)
            && (args.cpus.Some? ==> job.cpus == args.cpus.value)
            && (args.taskId.Some? ==>
                  && args.taskId.value.Id? && args.taskId.value.uuid in call.env.tasks
                  && var task := call.env.tasks[args.taskId.value.uuid];
                     && (args.memoryGB.None? ==> job.memoryGB == task.memoryGB)
                     && (args.cpus.None? ==> job.cpus == task.cpus))
            && (args.taskId.None? && args.memoryGB.None? ==> job.memoryGB == 0)
            && (args.taskId.None? && args.cpus.None? ==> job.cpus == 0)
            && job.id == call.id && VisitOf(call).requestKey == args.cacheKey
            && VisitOf(call).overrides == args.overrideCache
  {
    R.TaskMeaning(call.env, call.args);
  }

  // Every row's job was started, and its worker's final message settles exactly that row while it is accepted.
  lemma RowIsSettledByItsWorker(config: Config, visits: seq<Visit>, row: JobRow, db: Results.Db, status: Status,
                                testsFailed: bool) returns (job: Started)
    requires ValidAll(visits) && row in Run(config, visits).rows
    requires Results.Matches(db, Results.Key(GenericJob, row.id))
    ensures job in Run(config, visits).started && job.id == row.id
    ensures var (entity, entityID) := EndToEnd.Identity(CommandLine.FlagsGiven(job.arguments));
            var (after, err) := Results.HandleFinal(db, Pipeline.FinalMsg(entity, entityID, status, testsFailed),
                                                    Results.Tx(false, false, false));
            && err.None?
            && after.rows == db.rows[Results.Key(GenericJob, row.id) :=
                                     Results.Row(status, Some(!(status == Failed && testsFailed)))]
            && after.audit == db.audit
  {
    var k := RowsHaveCreators(config, visits, row);
    job := JobOf(visits[k]);
    StartedForItsRow(visits[k], JobIdFlag);
    var msg := Pipeline.FinalMsg(GenericJob, Id(row.id), status, testsFailed);
    Results.FinalMeans(db, msg, Results.Tx(false, false, false));
  }

  // A committed request is answered with the newest stored row of its key; one that created it, with its own.
  lemma AnswerIsStored(config: Config, c: Cache, v: Visit)
    requires v.work.Valid() && Commits(config, c, v)
    ensures var rows := After(config, c, v).rows;
            && HasRow(rows, KeyOf(config, v)) && RowFor(config, c, v) == Newest(rows, KeyOf(config, v))
            && (Creates(config, c, v) ==> rows == c.rows + [JobRow(v.id, KeyOf(config, v))])
            && (!Creates(config, c, v) ==> rows == c.rows && !v.overrides)
  {
    if Creates(config, c, v) {
      var rows := After(config, c, v).rows;
      assert rows[|rows| - 1].key == KeyOf(config, v);
    }
  }

  // Which failures matter: a hit needs its statement and the commit; a miss or an override also a confirmed launch.
  lemma OutcomeMeans(config: Config, c: Cache, v: Visit)
    requires v.work.Valid()
    ensures var hit := !v.overrides && exists i :: 0 <= i < |c.rows| && c.rows[i].key == KeyOf(config, v);
            && (Commits(config, c, v) <==>
                  !v.faults.statement && !v.faults.commit && (hit || v.faults.launch == Launches))
            && After(config, c, v).started
               == c.started + (if !hit && !v.faults.statement && v.faults.launch != Refuses then [JobOf(v)] else [])
            && After(config, c, v).rows
               == c.rows + (if !hit && Commits(config, c, v) then [JobRow(v.id, KeyOf(config, v))] else [])
  {
  }

  // URLs differ from hashes, a base is always passed on, and no component has a newline.
  predicate Clear(config: Config, v: Visit) {
    Tidy(v.work) && OneLineKey(config.serverKey, v.requestKey, v.work)
  }

  // A cache hit names a job that was started, by an earlier visit with the same key, for the same arguments: up
  // to the architecture, which counts only with a testcase. Memory and processors are the earlier visit's.
  lemma HitServesSameWork(config: Config, visits: seq<Visit>, v: Visit) returns (k: nat)
    requires ValidAll(visits) && v.work.Valid() && CollisionFree(config.digest)
    requires forall i :: 0 <= i < |visits| ==> Clear(config, visits[i])
    requires Clear(config, v) && Hits(config, Run(config, visits), v)
    ensures CreatedBy(config, visits, RowFor(config, Run(config, visits), v), k)
    ensures visits[k].requestKey == v.requestKey && AgreeOnKey(visits[k].work, v.work)
    ensures SameArguments(visits[k].work, v.work) <==> visits[k].work.architecture == v.work.architecture
    ensures v.work.testcase.Some? ==> SameArguments(visits[k].work, v.work)
  {
    k := RowsHaveCreators(config, visits, RowFor(config, Run(config, visits), v));
    var a := visits[k];
    SameKeyMeaning(config.digest, config.serverKey, a.requestKey, a.work, config.serverKey, v.requestKey, v.work);
    SharedKeyIsSharedWork(config.digest, config.serverKey, v.requestKey, a.work, v.work);
  }

  lemma FirstVisit(config: Config, v: Visit)
    requires v.work.Valid() && v.faults == Faults(false, Launches, false, false)
    ensures Run(config, [v]) == Cache([JobRow(v.id, KeyOf(config, v))], [JobOf(v)])
  {
    var one := [v];
    assert one[..|one| - 1] == [];
    assert Run(config, one) == After(config, EMPTY, v);
  }

  lemma HitsOnlyRow(config: Config, c: Cache, row: JobRow, v: Visit)
    requires c.rows == [row] && row.key == KeyOf(config, v) && !v.overrides && v.work.Valid()
    ensures Hits(config, c, v) && RowFor(config, c, v) == row && After(config, c, v) == c
  {
    assert c.rows[0].key == KeyOf(config, v);
  }

  // Whatever came before, a hit of an unambiguous visit names a job started for the same keyed components.
  lemma UnambiguousIsServedItsOwn(config: Config, names: string -> bool, visits: seq<Visit>, v: Visit) returns (k: nat)
    requires ValidAll(visits) && v.work.Valid() && CollisionFree(config.digest) && BlobNames(names)
    requires Named(names, v.work) && forall i :: 0 <= i < |visits| ==> Named(names, visits[i].work)
    requires Unambiguous(names, v.requestKey, v.work) && Hits(config, Run(config, visits), v)
    ensures CreatedBy(config, visits, RowFor(config, Run(config, visits), v), k)
    ensures visits[k].requestKey == v.requestKey && AgreeOnKey(visits[k].work, v.work)
    ensures SameArguments(visits[k].work, v.work) <==> AgreeOffKey(visits[k].work, v.work)
  {
    k := RowsHaveCreators(config, visits, RowFor(config, Run(config, visits), v));
    OwnsKeyIff(config.digest, names, config.serverKey, v.requestKey, v.work);
    ArgumentsDetermined(visits[k].work, v.work);
  }

  // An ambiguous one may be served a job with other arguments: some request that came first has the same key.
  lemma AmbiguousMayBeServedOther(config: Config, names: string -> bool, v: Visit, id: nat) returns (first: Visit)
    requires v.work.Valid() && Named(names, v.work) && !Unambiguous(names, v.requestKey, v.work) && !v.overrides
    ensures Askable(first.work) && Named(names, first.work)
    ensures Hits(config, Run(config, [first]), v) && RowFor(config, Run(config, [first]), v).id == first.id == id
    ensures !AgreeOnKey(v.work, first.work) && !SameArguments(v.work, first.work)
  {
    var other, b := AmbiguousCollides(names, v.requestKey, v.work);
    SameKeyIsSameText(config.digest, config.serverKey, v.requestKey, v.work, other, b);
    first := Visit(id, other, b, false, v.memoryGB, v.cpus, Faults(false, Launches, false, false));
    FirstVisit(config, first);
    HitsOnlyRow(config, Run(config, [first]), JobRow(id, KeyOf(config, first)), v);
  }

  // Resources are not keyed: any other memory and processors still hit the job started with the first ones.
  lemma ResourcesAreNotKeyed(config: Config, v: Visit, id: nat, memoryGB: int, cpus: int)
    requires v.work.Valid() && !v.overrides && v.faults == Faults(false, Launches, false, false)
    ensures var other := v.(id := id, memoryGB := memoryGB, cpus := cpus);
            var c := Run(config, [v]);
            && Hits(config, c, other) && RowFor(config, c, other).id == v.id && After(config, c, other) == c
            && c.started == [JobOf(v)]
            && (JobOf(v).memoryGB == other.memoryGB && JobOf(v).cpus == other.cpus <==>
                memoryGB == v.memoryGB && cpus == v.cpus)
  {
    FirstVisit(config, v);
    HitsOnlyRow(config, Run(config, [v]), JobRow(v.id, KeyOf(config, v)),
                v.(id := id, memoryGB := memoryGB, cpus := cpus));
  }

  /* ------------------------------------------------------- serial lists of requests */

  function ServedAll(config: Config, calls: seq<Call>): Cache {
    if calls == [] then EMPTY
    else Served(config, ServedAll(config, calls[..|calls| - 1]), calls[|calls| - 1])
  }

  // The visits of the requests that are not refused.
  function VisitsOf(calls: seq<Call>): (visits: seq<Visit>)
    ensures ValidAll(visits)
  {
    if calls == [] then []
    else
      var last := calls[|calls| - 1];
      VisitsOf(calls[..|calls| - 1]) + (if Accepted(last) then [VisitOf(last)] else [])
  }

  // Serving requests one after the other is the run of their visits, so all the above holds of it.
  lemma {:induction false} ServedIsRun(config: Config, calls: seq<Call>)
    ensures ServedAll(config, calls) == Run(config, VisitsOf(calls))
    decreases |calls|
  {
    if calls != [] {
      var before, last := calls[..|calls| - 1], calls[|calls| - 1];
      ServedIsRun(config, before);
      if Accepted(last) {
        assert VisitsOf(calls) == VisitsOf(before) + [VisitOf(last)];
        assert VisitsOf(calls)[..|VisitsOf(before)|] == VisitsOf(before);
      } else {
        assert VisitsOf(calls) == VisitsOf(before);
      }
    }
  }

  lemma {:induction false} VisitsHaveCalls(calls: seq<Call>, k: nat) returns (i: nat)
    requires k < |VisitsOf(calls)|
    ensures i < |calls| && Accepted(calls[i]) && VisitOf(calls[i]) == VisitsOf(calls)[k]
    decreases |calls|
  {
    var before := calls[..|calls| - 1];
    if k < |VisitsOf(before)| {
      i := VisitsHaveCalls(before, k);
    } else {
      i := |calls| - 1;
    }
  }

  // URLs have a colon and hashes have none, tasks have a base iff they are delta tasks, and no keyed text has
  // a newline.
  predicate ClearCall(config: Config, call: Call) {
    && call.args.Validated() && R.TidyRequest(call.env, call.args)
    && (Accepted(call) ==> OneLineKey(config.serverKey, call.args.cacheKey, VisitOf(call).work))
  }

  lemma ClearCallVisits(config: Config, call: Call)
    requires ClearCall(config, call) && Accepted(call)
    ensures Clear(config, VisitOf(call))
  {
    R.ResolvedIsTidy(call.env, call.args);
  }

  // A request that hits after a serial list of requests is answered with the job one of them started, which was
  // given this request's arguments iff the architectures agree, and the resources of the request that started it.
  lemma HitServesSameRequest(config: Config, calls: seq<Call>, call: Call) returns (i: nat)
    requires CollisionFree(config.digest) && Accepted(call) && ClearCall(config, call)
    requires forall j :: 0 <= j < |calls| ==> ClearCall(config, calls[j])
    requires Hits(config, ServedAll(config, calls), VisitOf(call))
    ensures i < |calls| && Accepted(calls[i]) && calls[i].args.cacheKey == call.args.cacheKey
    ensures RowFor(config, ServedAll(config, calls), VisitOf(call)).id == calls[i].id
    ensures JobOf(VisitOf(calls[i])) in ServedAll(config, calls).started
    ensures SameArguments(VisitOf(calls[i]).work, VisitOf(call).work) <==>
              calls[i].args.architecture == call.args.architecture
    ensures VisitOf(call).work.testcase.Some? ==> calls[i].args.architecture == call.args.architecture
  {
    ServedIsRun(config, calls);
    var visits := VisitsOf(calls);
    forall k | 0 <= k < |visits|
      ensures Clear(config, visits[k])
    {
      var j := VisitsHaveCalls(calls, k);
      ClearCallVisits(config, calls[j]);
    }
    ClearCallVisits(config, call);
    var k := HitServesSameWork(config, visits, VisitOf(call));
    i := VisitsHaveCalls(calls, k);
  }

  // A request with an unambiguous key that hits after any serial list of requests at all is answered with the job
  // one of them started for the same keyed components.
  lemma HitAfterAnything(config: Config, names: string -> bool, calls: seq<Call>, call: Call) returns (i: nat)
    requires CollisionFree(config.digest) && BlobNames(names) && Accepted(call) && R.NamesBlobs(names, call.env)
    requires forall j :: 0 <= j < |calls| ==> R.NamesBlobs(names, calls[j].env)
    requires Unambiguous(names, call.args.cacheKey, VisitOf(call).work)
    requires Hits(config, ServedAll(config, calls), VisitOf(call))
    ensures i < |calls| && Accepted(calls[i]) && calls[i].args.cacheKey == call.args.cacheKey
    ensures RowFor(config, ServedAll(config, calls), VisitOf(call)).id == calls[i].id
    ensures JobOf(VisitOf(calls[i])) in ServedAll(config, calls).started
    ensures AgreeOnKey(VisitOf(calls[i]).work, VisitOf(call).work)
    ensures SameArguments(VisitOf(calls[i]).work, VisitOf(call).work) <==>
              AgreeOffKey(VisitOf(calls[i]).work, VisitOf(call).work)
  {
    ServedIsRun(config, calls);
    var visits := VisitsOf(calls);
    forall k | 0 <= k < |visits|
      ensures Named(names, visits[k].work)
    {
      var j := VisitsHaveCalls(calls, k);
      R.ResolvedIsNamed(names, calls[j].env, calls[j].args);
    }
    R.ResolvedIsNamed(names, call.env, call.args);
    var k := UnambiguousIsServedItsOwn(config, names, visits, VisitOf(call));
    i := VisitsHaveCalls(calls, k);
  }
}
