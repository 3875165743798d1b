// The two writers of verdicts: the queue monitor and the job controller.
module Results {
  import opened Types
  import opened GoErrors
  import opened Pipeline

  // A submission row: `testsPassing` is the nullable functionality-tests column.
  datatype Row = Row(status: Status, testsPassing: Option<bool>)
  datatype Key = Key(kind: JobType, uuid: nat)

  // One result event of the audit log.
  datatype Event = Event(key: Key, status: Status, testsPassing: Option<bool>)

  datatype Db = Db(rows: map<Key, Row>, audit: seq<Event>)

  // What the database does to one transaction: the guarded update fails, the round of the
  // submission cannot be looked up, the commit fails.
  datatype Tx = Tx(updateFails: bool, lookupFails: bool, commitFails: bool)
  {
    // A transaction in which a statement failed cannot be committed.
    predicate Aborts() { updateFails ==> commitFails }
  }

  const BAD_ID: Err := PoisonError(Plain("failed to parse entity ID as UUID"))
  const BAD_ENTITY: Err := PoisonError(Plain("unsupported entity"))
  const TX_FAILED: Err := Plain("failed to update the db state")

  predicate Matches(db: Db, key: Key) {
    key in db.rows && db.rows[key].status == Accepted
  }

  // Only submissions of competitors are audited.
  predicate Audited(key: Key) { key.kind.PovJob? || key.kind.PatchJob? }

  function Write(db: Db, key: Key, row: Row): Db {
    Db(db.rows[key := row],
       if Audited(key) then db.audit + [Event(key, row.status, row.testsPassing)] else db.audit)
  }

  function Settled(key: Key, row: Row, msg: FinalMsg): Row {
    Row(msg.status,
        if key.kind.PovJob? then row.testsPassing else Some(!(msg.status == Failed && msg.patchTestsFailed)))
  }

  function HandleFinal(db: Db, msg: FinalMsg, tx: Tx): (Db, Option<Err>) {
    if msg.entityID.Malformed? then (db, Some(BAD_ID))
    else if msg.entity.Unknown? then (db, Some(BAD_ENTITY))
    else
      var key := Key(msg.entity, msg.entityID.uuid);
      var updated := !tx.updateFails && Matches(db, key);
      if (updated && Audited(key) && tx.lookupFails) || tx.commitFails then (db, Some(TX_FAILED))
      else if updated then (Write(db, key, Settled(key, db.rows[key], msg)), None)
      else (db, None)
  }

  // A message as it comes off the queue. Artifacts and command results are appended to a row's lists, which
  // leaves status, test result and result events alone; only the outcome of that matters here.
  datatype QueueMsg = Undecodable | UnknownType | Appended(outcome: Option<Err>) | Final(msg: FinalMsg)

  const BAD_MESSAGE: Err := PoisonError(Plain("failed to unmarshal queue message"))
  const BAD_TYPE: Err := PoisonError(Plain("queue message type not found"))

  function HandleAny(db: Db, m: QueueMsg, tx: Tx): (Db, Option<Err>) {
    match m
    case Undecodable => (db, Some(BAD_MESSAGE))
    case UnknownType => (db, Some(BAD_TYPE))
    case Appended(outcome) => (db, outcome)
    case Final(msg) => HandleFinal(db, msg, tx)
  }

  predicate IsPoison(e: Err) { e.PoisonError? }

  // A message leaves the queue once it is handled or found to be poison.
  predicate Discards(err: Option<Err>) {
    err.None? || As(err.value, IsPoison).Some?
  }

  // A message that cannot be read, or is for nothing, is dropped at once and changes nothing.
  lemma PoisonIsDropped(db: Db, m: QueueMsg, tx: Tx)
    requires m.Undecodable? || m.UnknownType? || (m.Final? && (m.msg.entityID.Malformed? || m.msg.entity.Unknown?))
    ensures HandleAny(db, m, tx).0 == db && Discards(HandleAny(db, m, tx).1)
  {
  }

  // With a well-formed message for a row that is still accepted, handling either moves the row to
  // the message's status or keeps the message, except in two cases: a failed update that commits
  // all the same, and a message that says accepted.
  lemma VerdictLostIff(db: Db, key: Key, msg: FinalMsg, tx: Tx)
    requires Matches(db, key) && !key.kind.Unknown?
    requires msg.entity == key.kind && msg.entityID == Id(key.uuid)
    ensures var (db', err) := HandleFinal(db, msg, tx);
            Discards(err) && db'.rows[key].status == Accepted <==>
            && !tx.commitFails
            && (tx.updateFails || (msg.status == Accepted && !(Audited(key) && tx.lookupFails)))
  {
  }

  /* ------------------------------------------------------- job controller */

  datatype ConditionType = JobFailed | JobComplete | OtherCondition
  datatype Condition = Condition(kind: ConditionType, isTrue: bool)

  // A Kubernetes job as the informer shows it: the labels name the row it evaluates.
  datatype KubeJob = KubeJob(name: string, kind: JobType, id: EntityId, conditions: seq<Condition>)

  predicate Holds(conditions: seq<Condition>, kind: ConditionType) {
    Condition(kind, true) in conditions
  }

  function SettleFailedJob(db: Db, kind: JobType, id: EntityId, tx: Tx): (Db, Option<Err>) {
    if id.Malformed? || kind.Unknown? then (db, None)
    else
      var key := Key(kind, id.uuid);
      if tx.updateFails || (Matches(db, key) && Audited(key) && tx.lookupFails) || tx.commitFails then
        (db, Some(TX_FAILED))
      else if Matches(db, key) then (Write(db, key, db.rows[key].(status := Errored)), None)
      else (db, None)
  }

  // The database part of handling a job event, and whether the job is then to be deleted.
  function Reconcile(db: Db, job: KubeJob, tx: Tx): (Db, Option<Err>, bool) {
    if Holds(job.conditions, JobFailed) then
      var (db', err) := SettleFailedJob(db, job.kind, job.id, tx);
      (db', err, err.None?)
    else (db, None, Holds(job.conditions, JobComplete))
  }

  // A statement of the transaction that settles the row of a failed job fails. A job without a row has none.
  predicate SettlingFails(db: Db, job: KubeJob, tx: Tx) {
    && job.id.Id? && !job.kind.Unknown?
    && (tx.updateFails || tx.commitFails
        || (tx.lookupFails && Audited(Key(job.kind, job.id.uuid)) && Matches(db, Key(job.kind, job.id.uuid))))
  }

  // What a job event does to the rows: a failed job's accepted row becomes errored, keeping its test result and
  // with an event if it is a submission, unless a statement fails; nothing else is ever changed.
  lemma ReconcileMeans(db: Db, job: KubeJob, tx: Tx)
    ensures var (db', err, deletes) := Reconcile(db, job, tx);
            var failed := Condition(JobFailed, true) in job.conditions;
            && (err.Some? <==> failed && SettlingFails(db, job, tx))
            && (deletes <==> if failed then err.None? else Condition(JobComplete, true) in job.conditions)
            && (db' != db ==> failed && err.None? && job.id.Id? && Matches(db, Key(job.kind, job.id.uuid)))
            && (failed && err.None? && job.id.Id? && !job.kind.Unknown? && Matches(db, Key(job.kind, job.id.uuid)) ==>
                  var key := Key(job.kind, job.id.uuid);
                  && db'.rows == db.rows[key := Row(Errored, db.rows[key].testsPassing)]
                  && db'.audit == if job.kind.PovJob? || job.kind.PatchJob?
                                  then db.audit + [Event(key, Errored, db.rows[key].testsPassing)] else db.audit)
  {
  }

  // A statement of the transaction of a final message fails.
  predicate FinalFails(db: Db, key: Key, tx: Tx) {
    tx.commitFails || (tx.lookupFails && !tx.updateFails && Audited(key) && Matches(db, key))
  }

  // What a final message does: an accepted row of any kind gets its status and, unless it is a POV, a test
  // result that is false iff the message says failed tests; submissions get an event. Otherwise nothing changes.
  lemma FinalMeans(db: Db, msg: FinalMsg, tx: Tx)
    requires msg.entityID.Id? && !msg.entity.Unknown?
    ensures var key := Key(msg.entity, msg.entityID.uuid);
            var (db', err) := HandleFinal(db, msg, tx);
            var tests := if msg.entity.PovJob? && key in db.rows then db.rows[key].testsPassing
                         else Some(!(msg.status == Failed && msg.patchTestsFailed));
            && (err.Some? <==> FinalFails(db, key, tx)) && (err.Some? ==> err == Some(TX_FAILED))
            && (if err.Some? || tx.updateFails || key !in db.rows || db.rows[key].status != Accepted then db' == db
                else
                  && db'.rows == db.rows[key := Row(msg.status, tests)]
                  && db'.audit == if msg.entity.GenericJob? then db.audit
                                  else db.audit + [Event(key, msg.status, tests)])
  {
  }

  // An artifact or command result is dropped iff it was appended or its handler calls it poison; verdicts stay.
  lemma AppendedMeans(db: Db, outcome: Option<Err>, tx: Tx)
    ensures var (db', err) := HandleAny(db, Appended(outcome), tx);
            db' == db && (Discards(err) <==> outcome.None? || exists n :: n in Nodes(outcome.value) && n.PoisonError?)
  {
    if outcome.Some? {
      AsFindsFirst(outcome.value, IsPoison);
    }
  }

  class Backend {
    var rows: map<Key, Row>
    var audit: seq<Event>
    var jobs: set<string>       // names of the jobs in the cluster

    function View(): Db
      reads this
    {
      Db(rows, audit)
    }

    constructor (rows: map<Key, Row>, jobs: set<string>)
      ensures this.rows == rows && audit == [] && this.jobs == jobs
    {
      this.rows, audit, this.jobs := rows, [], jobs;
    }

    // UPDATE ... WHERE id = key AND status = accepted, with the new row.
    method GuardedUpdate(key: Key, row: Row) returns (rowsAffected: nat)
      modifies this`rows
      ensures rowsAffected == if Matches(old(View()), key) then 1 else 0
      ensures rows == if rowsAffected == 1 then old(rows)[key := row] else old(rows)
    {
      if key in rows && rows[key].status == Accepted {
        rows := rows[key := row];
        return 1;
      }
      return 0;
    }

    method HandleFinalMessage(msg: FinalMsg, tx: Tx) returns (err: Option<Err>)
      modifies this`rows, this`audit
      ensures (View(), err) == HandleFinal(old(View()), msg, tx)
    {
      if msg.entityID.Malformed? {
        return Some(BAD_ID);
      }
      if msg.entity.Unknown? {
        return Some(BAD_ENTITY);
      }
      var key := Key(msg.entity, msg.entityID.uuid);
      var rows0, audit0 := rows, audit;
      if !tx.updateFails {
        var before := if key in rows then rows[key] else Row(Accepted, None);
        var testsFailed := false;
        if msg.status == Failed {
          testsFailed := msg.patchTestsFailed;
        }
        var after := if key.kind.PovJob? then before.(status := msg.status) else Row(msg.status, Some(!testsFailed));
        var rowsAffected := GuardedUpdate(key, after);
        if rowsAffected != 0 && (key.kind.PovJob? || key.kind.PatchJob?) {
          if tx.lookupFails {
            rows := rows0;
            return Some(TX_FAILED);
          }
          audit := audit + [Event(key, after.status, after.testsPassing)];
        }
      }
      if tx.commitFails {
        rows, audit := rows0, audit0;
        return Some(TX_FAILED);
      }
      err := None;
    }

    method Handle(m: QueueMsg, tx: Tx) returns (err: Option<Err>)
      modifies this`rows, this`audit
      ensures (View(), err) == HandleAny(old(View()), m, tx)
    {
      match m {
        case Undecodable => err := Some(BAD_MESSAGE);
        case UnknownType => err := Some(BAD_TYPE);
        case Appended(outcome) => err := outcome;
        case Final(msg) => err := HandleFinalMessage(msg, tx);
      }
    }

    method SettleFailed(kind: JobType, id: EntityId, tx: Tx) returns (err: Option<Err>)
      modifies this`rows, this`audit
      ensures (View(), err) == SettleFailedJob(old(View()), kind, id, tx)
    {
      if id.Malformed? || kind.Unknown? {
        return None;
      }
      var key := Key(kind, id.uuid);
      var rows0, audit0 := rows, audit;
      if tx.updateFails {
        return Some(TX_FAILED);
      }
      var after := (if key in rows then rows[key] else Row(Accepted, None)).(status := Errored);
      var rowsAffected := GuardedUpdate(key, after);
      if rowsAffected != 0 && (kind.PovJob? || kind.PatchJob?) {
        if tx.lookupFails {
          rows := rows0;
          return Some(TX_FAILED);
        }
        audit := audit + [Event(key, Errored, after.testsPassing)];
      }
      if tx.commitFails {
        rows, audit := rows0, audit0;
        return Some(TX_FAILED);
      }
      err := None;
    }

    // Settles the row of a failed job, then deletes the job of a failed or completed one.
    method HandleJobUpdate(job: KubeJob, tx: Tx, deleteFails: bool) returns (err: Option<Err>)
      modifies this
      ensures !deleteFails && job.name in old(jobs) ==>
                (job.name !in jobs <==>
                   if Condition(JobFailed, true) in job.conditions then !SettlingFails(old(View()), job, tx)
                   else Condition(JobComplete, true) in job.conditions)
      ensures jobs - {job.name} == old(jobs) - {job.name} && (deleteFails ==> jobs == old(jobs))
      ensures var (db', err', deletes) := Reconcile(old(View()), job, tx);
              && View() == db'
              && jobs == (if deletes && !deleteFails then old(jobs) - {job.name} else old(jobs))
              && (err.None? <==> err'.None? && (deletes ==> !deleteFails && job.name in old(jobs)))
    {
      var failed, complete := false, false;
      var i := 0;
      while i < |job.conditions|
        invariant 0 <= i <= |job.conditions|
        invariant failed <==> Holds(job.conditions[..i], JobFailed)
        invariant complete <==> Holds(job.conditions[..i], JobComplete)
      {
        var cond := job.conditions[i];
        assert job.conditions[..i + 1] == job.conditions[..i] + [cond];
        if cond.kind.JobFailed? && cond.isTrue {
          failed := true;
        }
        if cond.kind.JobComplete? && cond.isTrue {
          complete := true;
        }
        i := i + 1;
      }
      assert job.conditions[..i] == job.conditions;
      if !failed && !complete {
        return None;
      }
      if failed {
        err := SettleFailed(job.kind, job.id, tx);
        if err.Some? {
          return;
        }
      }
      if deleteFails || job.name !in jobs {
        assert job.name !in jobs ==> jobs - {job.name} == jobs;
        return Some(Plain("failed to delete job"));
      }
      jobs := jobs - {job.name};
      err := None;
    }

    // One work item: it is put back exactly when the job was seen and handling it failed.
    method ProcessJobUpdate(name: string, informer: map<string, KubeJob>, tx: Tx, deleteFails: bool)
      returns (retried: bool)
      modifies this
      ensures name !in informer ==> !retried && View() == old(View()) && jobs == old(jobs)
      ensures name in informer ==>
                var (db', err', deletes) := Reconcile(old(View()), informer[name], tx);
                && View() == db'
                && jobs == (if deletes && !deleteFails then old(jobs) - {informer[name].name} else old(jobs))
                && (retried <==> err'.Some? || (deletes && (deleteFails || informer[name].name !in old(jobs))))
    {
      if name !in informer {
        return false;
      }
      var err := HandleJobUpdate(informer[name], tx, deleteFails);
      retried := err.Some?;
    }
  }

  /* ---------------------------------------------------------------- queue */

  // One poll of the queue; an empty one waits, and may find the context cancelled.
  datatype Poll = PollFailed | Empty(cancelled: bool) | One(id: nat) | Several

  // The message a sequence of polls ends with, if it ends with one.
  function Delivered(polls: seq<Poll>): (id: Option<nat>)
    ensures id.Some? ==> One(id.value) in polls
  {
    if polls == [] then None
    else match polls[0]
      case One(id) => Some(id)
      case Empty(cancelled) => if cancelled then None else Delivered(polls[1..])
      case _ => None
  }

  // The polls deliver the first message found, if only empty polls came before it.
  lemma {:induction false} DeliveredMeans(polls: seq<Poll>, id: nat)
    ensures Delivered(polls) == Some(id) <==>
              exists k :: 0 <= k < |polls| && polls[k] == One(id) && forall j :: 0 <= j < k ==> polls[j] == Empty(false)
    decreases |polls|
  {
    if polls != [] {
      var rest := polls[1..];
      DeliveredMeans(rest, id);
      if k :| 0 <= k < |polls| && polls[k] == One(id) && forall j :: 0 <= j < k ==> polls[j] == Empty(false) {
        assert k > 0 ==> rest[k - 1] == One(id) && polls[0] == Empty(false)
                         && forall j :: 0 <= j < k - 1 ==> rest[j] == polls[j + 1];
      }
      if polls[0] == Empty(false) && Delivered(rest) == Some(id) {
        var k :| 0 <= k < |rest| && rest[k] == One(id) && forall j :: 0 <= j < k ==> rest[j] == Empty(false);
        assert polls[k + 1] == One(id) && forall j :: 0 <= j < k + 1 ==> polls[j] == Empty(false);
      }
    }
  }

  class Monitor {
    const backend: Backend
    var messages: map<nat, QueueMsg>   // not yet deleted, visible or not

    constructor (backend: Backend, messages: map<nat, QueueMsg>)
      ensures this.backend == backend && this.messages == messages
    {
      this.backend, this.messages := backend, messages;
    }

    // At most one message is handled, and it is deleted only if handled or poison.
    method Dequeue(polls: seq<Poll>, tx: Tx, deleteFails: bool) returns (err: Option<Err>)
      requires forall id :: One(id) in polls ==> id in messages
      modifies this, backend`rows, backend`audit
      ensures var id := Delivered(polls);
              if id.None? then
                err.Some? && messages == old(messages) && backend.View() == old(backend.View())
              else
                var (db', handled) := HandleAny(old(backend.View()), old(messages)[id.value], tx);
                && backend.View() == db'
                && messages == (if Discards(handled) && !deleteFails then old(messages) - {id.value} else old(messages))
                && (err.Some? <==> Discards(handled) && deleteFails)
    {
      var msg: Option<nat> := None;
      var i := 0;
      while msg.None?
        invariant 0 <= i <= |polls|
        invariant msg.None? ==> Delivered(polls) == Delivered(polls[i..])
        invariant msg.Some? ==> Delivered(polls) == msg && msg.value in messages
        invariant messages == old(messages) && backend.View() == old(backend.View())
        decreases |polls| - i, msg.None?
      {
        if i == |polls| {
          return Some(Plain("context cancelled"));
        }
        match polls[i] {
          case PollFailed => return Some(Plain("failed to dequeue message"));
          case Several => return Some(Plain("unexpected number of messages"));
          case One(id) => msg := Some(id);
          case Empty(cancelled) =>
            if cancelled {
              return Some(Plain("context cancelled"));
            }
        }
        i := i + 1;
      }
      var handled := backend.Handle(messages[msg.value], tx);
      if handled.Some? {
        var pe := As(handled.value, IsPoison);
        if pe.None? {
          return None;
        }
      }
      if deleteFails {
        return Some(Plain("failed to remove message"));
      }
      messages := messages - {msg.value};
      err := None;
    }
  }
}
