// What every reachable state of the protocol satisfies.
module Safety {
  import opened Types
  import opened Results
  import opened Protocol

  predicate HasMessage(s: State, key: Key) {
    exists id | id in s.queue :: id in s.sent && s.sent[id].key == key
  }

  // A status the row was stored with, as opposed to one given by a writer.
  predicate Stored(status: Status) { status.Accepted? || status.DeadlineExceeded? }

  function EventsOf(audit: seq<Event>, key: Key): seq<Event> {
    if audit == [] then []
    else
      var last := audit[|audit| - 1];
      EventsOf(audit[..|audit| - 1], key) + if last.key == key then [last] else []
  }

  lemma EventsAppend(audit: seq<Event>, e: Event, key: Key)
    ensures EventsOf(audit + [e], key) == EventsOf(audit, key) + if e.key == key then [e] else []
  {
    assert (audit + [e])[..|audit|] == audit;
  }

  // Everything in flight belongs to a row whose job was created.
  predicate Rooted(s: State) {
    && (forall k :: k in s.db.rows ==> Audited(k))
    && s.launched <= s.db.rows.Keys && s.jobs <= s.launched && s.acked <= s.launched
    && s.conditions.Keys == s.launched && s.settledBy.Keys <= s.launched
    && (forall id :: id in s.queue ==> id in s.sent)
    && (forall id :: id in s.sent ==> s.sent[id].key in s.launched && s.sent[id].status in VERDICTS)
    && (forall d :: d in s.deliveries ==> d.id in s.sent)
    && (forall w :: w in s.works ==> w.key in s.launched)
  }

  // A row still accepted is carried by its job, or by a message once a worker was confirmed.
  predicate RowCarried(s: State, k: Key) {
    Matches(s.db, k) && k in s.launched ==> HasMessage(s, k) || (k in s.jobs && k !in s.acked)
  }

  // Nobody gives up a job or a message before the row is settled or another carrier exists.
  predicate Released(s: State) {
    && (forall d :: d in s.deliveries && d.done && d.id in s.sent ==> !Matches(s.db, s.sent[d.id].key))
    && (forall w :: w in s.works && w.done ==> w.key in s.acked || !Matches(s.db, w.key))
  }

  // A job is complete only after a worker's message was confirmed.
  predicate CompleteIsAcked(s: State) {
    && (forall w :: w in s.works && Holds(w.conditions, JobComplete) ==> w.key in s.acked)
    && (forall k :: k in s.conditions && Holds(s.conditions[k], JobComplete) ==> k in s.acked)
  }

  predicate Carried(s: State) {
    (forall k :: k in s.launched ==> RowCarried(s, k)) && Released(s) && CompleteIsAcked(s)
  }

  // A row is as it was stored, or as the writer credited with it leaves it.
  predicate RowExplained(s: State, k: Key)
    requires k in s.db.rows
  {
    var row := s.db.rows[k];
    if Stored(row.status) then
      k !in s.settledBy && row.testsPassing == None && (row.status.DeadlineExceeded? ==> k !in s.launched)
    else
      k in s.settledBy &&
      match s.settledBy[k]
      case ByController => row == Row(Errored, None)
      case ByMessage(id) =>
        id in s.sent && s.sent[id].key == k && row == Settled(k, Row(Accepted, None), MessageOf(s.sent[id]))
  }

  predicate Explained(s: State) {
    forall k :: k in s.db.rows ==> RowExplained(s, k)
  }

  function Expected(db: Db, k: Key): seq<Event> {
    if k in db.rows && !Stored(db.rows[k].status)
    then [Event(k, db.rows[k].status, db.rows[k].testsPassing)] else []
  }

  ghost predicate AuditMatches(db: Db) {
    forall k :: EventsOf(db.audit, k) == Expected(db, k)
  }

  ghost predicate Inv(s: State) {
    Rooted(s) && Carried(s) && Explained(s) && AuditMatches(s.db)
  }

  /* ------------------------------------------------------ the two writers */

  // A writer's transaction either does nothing or settles and audits one accepted row.
  predicate SettlesOnly(db: Db, db': Db, key: Key) {
    || db' == db
    || (Matches(db, key) && key in db'.rows && !Stored(db'.rows[key].status) && db' == Write(db, key, db'.rows[key]))
  }

  // A message that was handled leaves its row settled.
  lemma MonitorStep(db: Db, note: Note, tx: Tx)
    requires Audited(note.key) && note.status in VERDICTS && tx.Aborts()
    ensures var (db', err) := HandleFinal(db, MessageOf(note), tx);
            && SettlesOnly(db, db', note.key)
            && (db' != db ==> db'.rows[note.key] == Settled(note.key, db.rows[note.key], MessageOf(note)))
            && (Discards(err) ==> !Matches(db', note.key))
  {
  }

  // A job is released only when its row is settled or it completed.
  lemma ControllerStep(db: Db, w: Work, tx: Tx)
    requires Audited(w.key)
    ensures var (db', err, deletes) := Reconcile(db, JobOf(w), tx);
            && SettlesOnly(db, db', w.key)
            && (db' != db ==> db'.rows[w.key] == db.rows[w.key].(status := Errored))
            && (deletes ==> !Matches(db', w.key) || Holds(w.conditions, JobComplete))
  {
  }

  lemma SettlingKeepsAudit(db: Db, db': Db, key: Key)
    requires AuditMatches(db) && SettlesOnly(db, db', key) && Audited(key)
    ensures AuditMatches(db')
  {
    if db' != db {
      var e := Event(key, db'.rows[key].status, db'.rows[key].testsPassing);
      forall k
        ensures EventsOf(db'.audit, k) == Expected(db', k)
      {
        EventsAppend(db.audit, e, k);
      }
    }
  }

  lemma SettlingKeepsRows(s: State, s': State, key: Key, settler: Settler)
    requires Rooted(s) && Explained(s) && SettlesOnly(s.db, s'.db, key) && key in s.launched
    requires s'.launched == s.launched && s'.sent == s.sent
    requires s'.settledBy == Credit(s, s'.db, key, settler)
    requires s'.db != s.db ==> RowExplained(s', key)
    ensures Explained(s')
  {
    forall k | k in s'.db.rows
      ensures RowExplained(s', k)
    {
      if k != key || s'.db == s.db {
        assert RowExplained(s, k);
      }
    }
  }

  // Settling a row keeps every carrier: the queue and the jobs are as before.
  lemma SettlingKeepsCarriers(s: State, s': State, key: Key)
    requires Carried(s) && SettlesOnly(s.db, s'.db, key)
    requires s'.launched == s.launched && s'.jobs == s.jobs && s'.acked == s.acked
    requires s'.sent == s.sent && s'.queue == s.queue
    ensures forall k :: k in s'.launched ==> RowCarried(s', k)
    ensures forall k :: Matches(s'.db, k) ==> Matches(s.db, k)
  {
    forall k | k in s'.launched
      ensures RowCarried(s', k)
    {
      assert RowCarried(s, k);
      MessageStays(s, s', k);
    }
  }

  lemma HandledKeeps(s: State, d: Delivery, db: Db, handled: bool)
    requires Inv(s) && d in s.deliveries
    requires SettlesOnly(s.db, db, s.sent[d.id].key)
    requires var key := s.sent[d.id].key;
             db != s.db ==> db.rows[key] == Settled(key, s.db.rows[key], MessageOf(s.sent[d.id]))
    requires handled ==> !Matches(db, s.sent[d.id].key)
    ensures Inv(Handled(s, d, s.sent[d.id].key, db, handled))
  {
    var key := s.sent[d.id].key;
    var s' := Handled(s, d, key, db, handled);
    assert RowExplained(s, key);
    SettlingKeepsAudit(s.db, db, key);
    SettlingKeepsRows(s, s', key, ByMessage(d.id));
    SettlingKeepsCarriers(s, s', key);
    assert Rooted(s');
    assert Released(s');
  }

  lemma ReconciledKeeps(s: State, w: Work, db: Db, deletes: bool)
    requires Inv(s) && w in s.works
    requires SettlesOnly(s.db, db, w.key)
    requires db != s.db ==> db.rows[w.key] == s.db.rows[w.key].(status := Errored)
    requires deletes ==> !Matches(db, w.key) || Holds(w.conditions, JobComplete)
    ensures Inv(Reconciled(s, w, db, deletes))
  {
    var s' := Reconciled(s, w, db, deletes);
    assert RowExplained(s, w.key);
    SettlingKeepsAudit(s.db, db, w.key);
    SettlingKeepsRows(s, s', w.key, ByController);
    SettlingKeepsCarriers(s, s', w.key);
    assert Rooted(s');
    assert Released(s');
  }

  /* ------------------------------------------------------ the other steps */

  lemma MessageStays(s: State, s': State, k: Key)
    requires s.queue <= s'.queue
    requires forall id :: id in s.sent ==> id in s'.sent && s'.sent[id] == s.sent[id]
    ensures HasMessage(s, k) ==> HasMessage(s', k)
  {
    if HasMessage(s, k) {
      var id :| id in s.queue && id in s.sent && s.sent[id].key == k;
      assert id in s'.queue;
    }
  }

  // Steps that leave rows and credits alone keep what is said about each row.
  lemma RowsStayExplained(s: State, s': State)
    requires Explained(s)
    requires s'.db.rows == s.db.rows && s'.settledBy == s.settledBy && s'.launched == s.launched
    requires forall id :: id in s.sent ==> id in s'.sent && s'.sent[id] == s.sent[id]
    ensures Explained(s')
  {
    forall k | k in s'.db.rows
      ensures RowExplained(s', k)
    {
      assert RowExplained(s, k);
    }
  }

  // Steps that take no job and no message away, and confirm nobody, keep every row carried.
  lemma RowsStayCarried(s: State, s': State)
    requires Carried(s)
    requires s'.db == s.db && s'.launched == s.launched && s.jobs <= s'.jobs && s'.acked == s.acked
    requires s.queue <= s'.queue
    requires forall id :: id in s.sent ==> id in s'.sent && s'.sent[id] == s.sent[id]
    ensures forall k :: k in s'.launched ==> RowCarried(s', k)
  {
    forall k | k in s'.launched
      ensures RowCarried(s', k)
    {
      assert RowCarried(s, k);
      MessageStays(s, s', k);
    }
  }

  lemma SubmittedKeeps(s: State, key: Key, late: bool)
    requires Inv(s) && Audited(key) && key !in s.db.rows
    ensures Inv(Submitted(s, key, late))
  {
    var s' := Submitted(s, key, late);
    forall k | k in s'.db.rows
      ensures RowExplained(s', k)
    {
      assert k != key ==> RowExplained(s, k);
    }
    forall k | k in s'.launched
      ensures RowCarried(s', k)
    {
      assert RowCarried(s, k);
      MessageStays(s, s', k);
    }
    forall k
      ensures EventsOf(s'.db.audit, k) == Expected(s'.db, k)
    {
      assert EventsOf(s.db.audit, k) == Expected(s.db, k);
    }
  }

  lemma LaunchedKeeps(s: State, key: Key)
    requires Inv(s) && Matches(s.db, key) && key !in s.launched
    ensures Inv(Launched(s, key))
  {
    var s' := Launched(s, key);
    forall k | k in s'.db.rows
      ensures RowExplained(s', k)
    {
      assert RowExplained(s, k);
    }
    forall k | k in s'.launched
      ensures RowCarried(s', k)
    {
      assert k != key ==> RowCarried(s, k);
      MessageStays(s, s', k);
    }
  }

  lemma EnqueuedKeeps(s: State, note: Note, id: nat, confirmed: bool)
    requires Inv(s) && note.key in s.launched && id !in s.sent && note.status in VERDICTS
    ensures Inv(Enqueued(s, note, id, confirmed))
  {
    var s' := Enqueued(s, note, id, confirmed);
    RowsStayExplained(s, s');
    EnqueuedCarries(s, note, id, confirmed);
    assert Rooted(s');
    assert Released(s');
  }

  // The row of the message is carried by it from now on, even if its worker was confirmed.
  lemma EnqueuedCarries(s: State, note: Note, id: nat, confirmed: bool)
    requires Carried(s) && id !in s.sent
    ensures var s' := Enqueued(s, note, id, confirmed);
            forall k :: k in s'.launched ==> RowCarried(s', k)
  {
    var s' := Enqueued(s, note, id, confirmed);
    assert id in s'.queue && s'.sent[id].key == note.key;
    forall k | k in s'.launched
      ensures RowCarried(s', k)
    {
      assert RowCarried(s, k);
      MessageStays(s, s', k);
    }
  }

  lemma ReportedKeeps(s: State, key: Key, condition: Condition)
    requires Inv(s) && key in s.jobs && key in s.conditions
    requires condition == Condition(JobComplete, true) ==> key in s.acked
    ensures Inv(Reported(s, key, condition))
  {
    var s' := Reported(s, key, condition);
    RowsStayExplained(s, s');
    RowsStayCarried(s, s');
    assert Holds(s'.conditions[key], JobComplete) ==>
             Holds(s.conditions[key], JobComplete) || condition == Condition(JobComplete, true);
    assert CompleteIsAcked(s');
  }

  // Any change of the works or the deliveries that adds only what it should.
  lemma HandlersKeep(s: State, deliveries: set<Delivery>, works: set<Work>)
    requires Inv(s)
    requires forall d :: d in deliveries && d !in s.deliveries ==> !d.done && d.id in s.sent
    requires forall w :: w in works && w !in s.works ==>
               !w.done && w.key in s.launched && (Holds(w.conditions, JobComplete) ==> w.key in s.acked)
    ensures Inv(s.(deliveries := deliveries, works := works))
  {
    var s' := s.(deliveries := deliveries, works := works);
    RowsStayExplained(s, s');
    RowsStayCarried(s, s');
    assert Rooted(s');
  }

  lemma DeletedMessageKeeps(s: State, d: Delivery)
    requires Inv(s) && d in s.deliveries && d.done
    ensures Inv(s.(queue := s.queue - {d.id}))
  {
    var s' := s.(queue := s.queue - {d.id});
    RowsStayExplained(s, s');
    forall k | k in s'.launched
      ensures RowCarried(s', k)
    {
      assert RowCarried(s, k);
      if Matches(s.db, k) && HasMessage(s, k) {
        var id :| id in s.queue && id in s.sent && s.sent[id].key == k;
        assert id in s'.queue;
      }
    }
  }

  lemma DeletedJobKeeps(s: State, w: Work)
    requires Inv(s) && w in s.works && w.done
    ensures Inv(s.(jobs := s.jobs - {w.key}))
  {
    var s' := s.(jobs := s.jobs - {w.key});
    RowsStayExplained(s, s');
    forall k | k in s'.launched
      ensures RowCarried(s', k)
    {
      assert RowCarried(s, k);
      MessageStays(s, s', k);
    }
  }

  lemma HandleKeeps(s: State, d: Delivery, tx: Tx)
    requires Inv(s) && Enabled(s, Handle(d, tx))
    ensures Inv(Apply(s, Handle(d, tx)))
  {
    MonitorStep(s.db, s.sent[d.id], tx);
    var (db, err) := HandleFinal(s.db, MessageOf(s.sent[d.id]), tx);
    HandledKeeps(s, d, db, Discards(err));
  }

  lemma SettleKeeps(s: State, w: Work, tx: Tx)
    requires Inv(s) && Enabled(s, Settle(w, tx))
    ensures Inv(Apply(s, Settle(w, tx)))
  {
    ControllerStep(s.db, w, tx);
    var (db, _, deletes) := Reconcile(s.db, JobOf(w), tx);
    ReconciledKeeps(s, w, db, deletes);
  }

  predicate HandsOver(a: Action) {
    a.Deliver? || a.DropDelivery? || a.Observe? || a.DropWork? || a.DeleteMessage? || a.DeleteJob?
  }

  lemma HandingOverKeeps(s: State, a: Action)
    requires Inv(s) && Enabled(s, a) && HandsOver(a)
    ensures Inv(Apply(s, a))
  {
    match a {
      case Deliver(id, receipt) => HandlersKeep(s, s.deliveries + {Delivery(receipt, id, false)}, s.works);
      case DropDelivery(d) => HandlersKeep(s, s.deliveries - {d}, s.works);
      case Observe(key, seen, ticket) =>
        HandlersKeep(s, s.deliveries, s.works + {Work(ticket, key, s.conditions[key][..seen], false)});
      case DropWork(w) => HandlersKeep(s, s.deliveries, s.works - {w});
      case DeleteMessage(d) =>
        DeletedMessageKeeps(s, d);
        HandlersKeep(s.(queue := s.queue - {d.id}), s.deliveries - {d}, s.works);
      case DeleteJob(w) =>
        DeletedJobKeeps(s, w);
        HandlersKeep(s.(jobs := s.jobs - {w.key}), s.deliveries, s.works - {w});
    }
  }

  lemma EveryActionKeeps(s: State, a: Action)
    requires Inv(s) && Enabled(s, a)
    ensures Inv(Apply(s, a))
  {
    if HandsOver(a) {
      HandingOverKeeps(s, a);
    } else {
      match a {
        case Submit(key, late) => SubmittedKeeps(s, key, late);
        case Launch(key) => LaunchedKeeps(s, key);
        case Enqueue(note, id, confirmed) => EnqueuedKeeps(s, note, id, confirmed);
        case Report(key, condition) => ReportedKeeps(s, key, condition);
        case Handle(d, tx) => HandleKeeps(s, d, tx);
        case Settle(w, tx) => SettleKeeps(s, w, tx);
      }
    }
  }

  lemma {:induction false} EveryRunKeeps(s: State, actions: seq<Action>, s': State)
    requires Inv(s) && Leads(s, actions, s')
    ensures Inv(s')
    decreases |actions|
  {
    if actions != [] {
      EveryActionKeeps(s, actions[0]);
      EveryRunKeeps(Apply(s, actions[0]), actions[1..], s');
    }
  }

  lemma ReachableInv(s: State)
    requires Reachable(s)
    ensures Inv(s)
  {
    var actions :| Leads(START, actions, s);
    EveryRunKeeps(START, actions, s);
  }

  // No verdict is lost: in every reachable state a row that is still accepted has its job in the
  // cluster or a final message on the queue exactly when its job was ever created.
  lemma NoVerdictIsLost(s: State, key: Key)
    requires Reachable(s) && Matches(s.db, key)
    ensures key in s.launched <==> key in s.jobs || HasMessage(s, key)
  {
    ReachableInv(s);
    assert key in s.launched ==> RowCarried(s, key);
  }

  // The audit log holds one result event for each row a writer settled, agreeing with the row as
  // it is now, and none for the others.
  lemma AuditAgrees(s: State, key: Key)
    requires Reachable(s)
    ensures EventsOf(s.db.audit, key) ==
            if key in s.db.rows && !Stored(s.db.rows[key].status)
            then [Event(key, s.db.rows[key].status, s.db.rows[key].testsPassing)] else []
  {
    ReachableInv(s);
  }

  // Only a message of the row's own worker or the controller settles a row, and it leaves the
  // row as that writer writes it: the controller as errored without a test result, a message with
  // its status, and for a patch with a test result that is false iff the message says failed tests.
  lemma SettledRows(s: State, key: Key)
    requires Reachable(s) && key in s.db.rows
    ensures var row := s.db.rows[key];
            if Stored(row.status) then row.testsPassing == None
            else
              key in s.launched && key in s.settledBy &&
              match s.settledBy[key]
              case ByController => row == Row(Errored, None)
              case ByMessage(id) =>
                id in s.sent && s.sent[id].key == key && row.status == s.sent[id].status
                && (key.kind.PovJob? ==> row.testsPassing == None)
                && (key.kind.PatchJob? ==>
                      row.testsPassing == Some(!(s.sent[id].status == Failed && s.sent[id].testsFailed)))
  {
    ReachableInv(s);
    assert RowExplained(s, key);
  }

  /* ------------------------------------------------------- whole runs */

  lemma StepKeepsFinalRows(s: State, a: Action, key: Key)
    requires Enabled(s, a) && key in s.db.rows
    ensures key in Apply(s, a).db.rows
    ensures !Matches(s.db, key) ==> Apply(s, a).db.rows[key] == s.db.rows[key]
  {
  }

  // A row that is not accepted never changes again.
  lemma {:induction false} FinalRowsStay(s: State, actions: seq<Action>, s': State, key: Key)
    requires Leads(s, actions, s') && key in s.db.rows
    ensures key in s'.db.rows
    ensures !Matches(s.db, key) ==> s'.db.rows[key] == s.db.rows[key]
    decreases |actions|
  {
    if actions != [] {
      StepKeepsFinalRows(s, actions[0], key);
      FinalRowsStay(Apply(s, actions[0]), actions[1..], s', key);
    }
  }

  // The first verdict wins: the step that changes a row finds it accepted, gives it a verdict,
  // and no later step of any run changes it.
  lemma FirstVerdictWins(s: State, a: Action, later: seq<Action>, s': State, key: Key)
    requires Reachable(s) && Enabled(s, a) && key in s.db.rows
    requires var next := Apply(s, a);
             key in next.db.rows && next.db.rows[key] != s.db.rows[key] && Leads(next, later, s')
    ensures s.db.rows[key].status == Accepted && key !in s.settledBy
    ensures key in s'.db.rows && s'.db.rows[key] == Apply(s, a).db.rows[key] && s'.db.rows[key].status in VERDICTS
  {
    ChangeIsAFirstVerdict(s, a, key);
    FinalRowsStay(Apply(s, a), later, s', key);
  }

  lemma ChangeIsAFirstVerdict(s: State, a: Action, key: Key)
    requires Reachable(s) && Enabled(s, a) && key in s.db.rows
    requires key in Apply(s, a).db.rows && Apply(s, a).db.rows[key] != s.db.rows[key]
    ensures s.db.rows[key].status == Accepted && key !in s.settledBy
    ensures Apply(s, a).db.rows[key].status in VERDICTS && !Matches(Apply(s, a).db, key)
  {
    ReachableInv(s);
    StepKeepsFinalRows(s, a, key);
    UnsettledHasNoSettler(s, key);
    StepSettles(s, a, key);
  }

  lemma UnsettledHasNoSettler(s: State, key: Key)
    requires Inv(s) && Matches(s.db, key)
    ensures key !in s.settledBy
  {
    assert RowExplained(s, key);
  }

  // A step touches at most the row of one launched key, and only by settling it.
  lemma StepSettles(s: State, a: Action, key: Key)
    requires Rooted(s) && Enabled(s, a) && key in s.db.rows
    ensures key in Apply(s, a).db.rows
    ensures Apply(s, a).db.rows[key] != s.db.rows[key] ==>
              key in s.launched && Apply(s, a).db.rows[key].status in VERDICTS
  {
    if a.Handle? {
      MonitorStep(s.db, s.sent[a.delivery.id], a.tx);
    } else if a.Settle? {
      ControllerStep(s.db, a.work, a.tx);
    }
  }

  // A submission whose job could not be created is never settled by anything else.
  lemma {:induction false} UnlaunchedRowsWait(s: State, actions: seq<Action>, s': State, key: Key)
    requires Inv(s) && Leads(s, actions, s') && key in s.db.rows && key !in s.launched
    requires Launch(key) !in actions
    ensures key in s'.db.rows && s'.db.rows[key] == s.db.rows[key] && key !in s'.launched
    decreases |actions|
  {
    if actions != [] {
      EveryActionKeeps(s, actions[0]);
      StepSettles(s, actions[0], key);
      UnlaunchedRowsWait(Apply(s, actions[0]), actions[1..], s', key);
    }
  }
}
