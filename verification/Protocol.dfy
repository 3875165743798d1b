// Submissions, evaluation jobs, the results queue and the two writers as one step relation.
// The environment may redeliver messages, run workers twice, lose or duplicate enqueues, fail any
// transaction or call, and let any number of handlers work on stale copies at the same time.
module Protocol {
  import opened Types
  import opened Pipeline
  import opened Results

  // A message handed to a monitor under a receipt; `done` once its handling lets it be deleted.
  datatype Delivery = Delivery(receipt: nat, id: nat, done: bool)

  // A job event taken up by a controller worker, with the conditions its informer showed;
  // `done` once the job may be deleted.
  datatype Work = Work(ticket: nat, key: Key, conditions: seq<Condition>, done: bool)

  // A final message as a worker of a row's job sends it.
  datatype Note = Note(key: Key, status: Status, testsFailed: bool)

  datatype Settler = ByMessage(id: nat) | ByController

  datatype State = State(
    db: Db,
    launched: set<Key>,                     // rows whose evaluation job was created
    jobs: set<Key>,                         // jobs still in the cluster
    conditions: map<Key, seq<Condition>>,   // every condition a job has had, in order
    acked: set<Key>,                        // jobs with a worker whose final enqueue was confirmed
    sent: map<nat, Note>,                   // every message that ever landed on the queue
    queue: set<nat>,                        // those not yet deleted
    deliveries: set<Delivery>,
    works: set<Work>,
    settledBy: map<Key, Settler>)

  const START: State := State(Db(map[], []), {}, {}, map[], {}, map[], {}, {}, {}, map[])

  datatype Action =
    | Submit(key: Key, late: bool)                    // the row is inserted
    | Launch(key: Key)                                // the job is created
    | Enqueue(note: Note, id: nat, confirmed: bool)   // a worker's final message lands
    | Report(key: Key, condition: Condition)          // the cluster adds a condition to a job
    | Deliver(id: nat, receipt: nat)
    | Handle(delivery: Delivery, tx: Tx)
    | DeleteMessage(delivery: Delivery)
    | DropDelivery(delivery: Delivery)                // handler or deletion failed, or timed out
    | Observe(key: Key, seen: nat, ticket: nat)
    | Settle(work: Work, tx: Tx)
    | DeleteJob(work: Work)
    | DropWork(work: Work)

  const VERDICTS: set<Status> := {Passed, Failed, Errored, Inconclusive}

  function MessageOf(note: Note): FinalMsg {
    FinalMsg(note.key.kind, Id(note.key.uuid), note.status, note.testsFailed)
  }

  // The informer's view of a job; its name does not matter to the database.
  function JobOf(w: Work): KubeJob {
    KubeJob("", w.key.kind, Id(w.key.uuid), w.conditions)
  }

  predicate Enabled(s: State, a: Action) {
    match a
    case Submit(key, _) => Audited(key) && key !in s.db.rows
    case Launch(key) => Matches(s.db, key) && key !in s.launched
    case Enqueue(note, id, _) => note.key in s.launched && id !in s.sent && note.status in VERDICTS
    case Report(key, condition) =>
      && key in s.jobs && key in s.conditions
      && (condition == Condition(JobComplete, true) ==> key in s.acked)
    case Deliver(id, receipt) => id in s.queue && forall d :: d in s.deliveries ==> d.receipt != receipt
    case Handle(d, tx) => d in s.deliveries && !d.done && d.id in s.sent && tx.Aborts()
    case DeleteMessage(d) => d in s.deliveries && d.done
    case DropDelivery(d) => d in s.deliveries
    case Observe(key, seen, ticket) =>
      && key in s.conditions && seen <= |s.conditions[key]|
      && forall w :: w in s.works ==> w.ticket != ticket
    case Settle(w, _) => w in s.works && !w.done
    case DeleteJob(w) => w in s.works && w.done
    case DropWork(w) => w in s.works
  }

  function Submitted(s: State, key: Key, late: bool): State {
    s.(db := Db(s.db.rows[key := Row(if late then DeadlineExceeded else Accepted, None)], s.db.audit))
  }

  function Launched(s: State, key: Key): State {
    s.(launched := s.launched + {key}, jobs := s.jobs + {key}, conditions := s.conditions[key := []])
  }

  function Enqueued(s: State, note: Note, id: nat, confirmed: bool): State {
    s.(sent := s.sent[id := note], queue := s.queue + {id},
       acked := if confirmed then s.acked + {note.key} else s.acked)
  }

  function Reported(s: State, key: Key, condition: Condition): State
    requires key in s.conditions
  {
    s.(conditions := s.conditions[key := s.conditions[key] + [condition]])
  }

  function Credit(s: State, db: Db, key: Key, settler: Settler): map<Key, Settler> {
    if Matches(s.db, key) && !Matches(db, key) then s.settledBy[key := settler] else s.settledBy
  }

  // A transaction has turned the database into `db`; the message may be deleted if it was handled.
  function Handled(s: State, d: Delivery, key: Key, db: Db, handled: bool): State {
    s.(db := db, settledBy := Credit(s, db, key, ByMessage(d.id)),
       deliveries := s.deliveries - {d} + (if handled then {d.(done := true)} else {}))
  }

  function Reconciled(s: State, w: Work, db: Db, deletes: bool): State {
    s.(db := db, settledBy := Credit(s, db, w.key, ByController),
       works := s.works - {w} + (if deletes then {w.(done := true)} else {}))
  }

  function Apply(s: State, a: Action): State
    requires Enabled(s, a)
  {
    match a
    case Submit(key, late) => Submitted(s, key, late)
    case Launch(key) => Launched(s, key)
    case Enqueue(note, id, confirmed) => Enqueued(s, note, id, confirmed)
    case Report(key, condition) => Reported(s, key, condition)
    case Deliver(id, receipt) => s.(deliveries := s.deliveries + {Delivery(receipt, id, false)})
    case Handle(d, tx) =>
      var (db, err) := HandleFinal(s.db, MessageOf(s.sent[d.id]), tx);
      Handled(s, d, s.sent[d.id].key, db, Discards(err))
    case DeleteMessage(d) => s.(queue := s.queue - {d.id}, deliveries := s.deliveries - {d})
    case DropDelivery(d) => s.(deliveries := s.deliveries - {d})
    case Observe(key, seen, ticket) =>
      s.(works := s.works + {Work(ticket, key, s.conditions[key][..seen], false)})
    case Settle(w, tx) =>
      var (db, _, deletes) := Reconcile(s.db, JobOf(w), tx);
      Reconciled(s, w, db, deletes)
    case DeleteJob(w) => s.(jobs := s.jobs - {w.key}, works := s.works - {w})
    case DropWork(w) => s.(works := s.works - {w})
  }

  // The actions lead from one state to the other.
  predicate Leads(s: State, actions: seq<Action>, s': State)
    decreases |actions|
  {
    if actions == [] then s' == s
    else Enabled(s, actions[0]) && Leads(Apply(s, actions[0]), actions[1..], s')
  }

  ghost predicate Reachable(s: State) {
    exists actions :: Leads(START, actions, s)
  }

  lemma {:induction false} LeadsInParts(s: State, a: seq<Action>, mid: State, b: seq<Action>, s': State)
    requires Leads(s, a, mid) && Leads(mid, b, s')
    ensures Leads(s, a + b, s')
    decreases |a|
  {
    if a == [] {
      assert a + b == b;
    } else {
      assert (a + b)[1..] == a[1..] + b;
      LeadsInParts(Apply(s, a[0]), a[1..], mid, b, s');
    }
  }
}
