// No reachable state of the protocol is a dead end for a launched submission.
module ServerProgress {
  import opened Types
  import opened Results
  import opened Protocol
  import opened Safety

  const GOOD: Tx := Tx(false, false, false)

  lemma {:induction false} FreshReceipt(deliveries: set<Delivery>) returns (receipt: nat)
    ensures forall d :: d in deliveries ==> d.receipt < receipt
  {
    receipt := 0;
    var rest := deliveries;
    while rest != {}
      invariant rest <= deliveries
      invariant forall d :: d in deliveries && d !in rest ==> d.receipt < receipt
      decreases |rest|
    {
      var d :| d in rest;
      rest := rest - {d};
      if receipt <= d.receipt { receipt := d.receipt + 1; }
    }
  }

  lemma {:induction false} FreshTicket(works: set<Work>) returns (ticket: nat)
    ensures forall w :: w in works ==> w.ticket < ticket
  {
    ticket := 0;
    var rest := works;
    while rest != {}
      invariant rest <= works
      invariant forall w :: w in works && w !in rest ==> w.ticket < ticket
      decreases |rest|
    {
      var w :| w in rest;
      rest := rest - {w};
      if ticket <= w.ticket { ticket := w.ticket + 1; }
    }
  }

  // Steps the server takes by itself: no submitter, worker or cluster is involved.
  predicate ServerStep(a: Action) { a.Deliver? || a.Handle? || a.Observe? || a.Settle? }

  lemma TwoSteps(s: State, a: Action, b: Action)
    requires Enabled(s, a) && Enabled(Apply(s, a), b)
    ensures Leads(s, [a, b], Apply(Apply(s, a), b))
  {
    var next := Apply(s, a);
    assert [a, b][1..] == [b];
    assert Leads(next, [b], Apply(next, b)) by {
      assert [b][1..] == [];
    }
  }

  lemma DeliveringSettles(s: State, key: Key, id: nat) returns (actions: seq<Action>, s': State)
    requires Inv(s) && id in s.queue && s.sent[id].key == key
    ensures Leads(s, actions, s') && !Matches(s'.db, key)
    ensures forall a :: a in actions ==> ServerStep(a)
  {
    var receipt := FreshReceipt(s.deliveries);
    var a, b := Deliver(id, receipt), Handle(Delivery(receipt, id, false), GOOD);
    MonitorStep(s.db, s.sent[id], GOOD);
    TwoSteps(s, a, b);
    actions, s' := [a, b], Apply(Apply(s, a), b);
  }

  lemma ReconcilingSettles(s: State, key: Key) returns (actions: seq<Action>, s': State)
    requires Inv(s) && key in s.conditions && Holds(s.conditions[key], JobFailed)
    ensures Leads(s, actions, s') && !Matches(s'.db, key)
    ensures forall a :: a in actions ==> ServerStep(a)
  {
    var ticket := FreshTicket(s.works);
    var conditions := s.conditions[key];
    var w := Work(ticket, key, conditions, false);
    var a, b := Observe(key, |conditions|, ticket), Settle(w, GOOD);
    assert conditions[..|conditions|] == conditions;
    TwoSteps(s, a, b);
    actions, s' := [a, b], Apply(Apply(s, a), b);
  }

  // A launched submission that is still accepted either has a job still running, neither complete
  // nor failed, or can be settled by steps of the server alone.
  lemma ServerCanSettle(s: State, key: Key) returns (actions: seq<Action>, s': State)
    requires Reachable(s) && Matches(s.db, key) && key in s.launched
    ensures || (&& key in s.jobs && key in s.conditions
                && !Holds(s.conditions[key], JobComplete) && !Holds(s.conditions[key], JobFailed))
            || (&& Leads(s, actions, s') && !Matches(s'.db, key)
                && forall a :: a in actions ==> ServerStep(a))
  {
    ReachableInv(s);
    assert RowCarried(s, key);
    actions, s' := [], s;
    if HasMessage(s, key) {
      var id :| id in s.queue && id in s.sent && s.sent[id].key == key;
      actions, s' := DeliveringSettles(s, key, id);
    } else if Holds(s.conditions[key], JobFailed) {
      actions, s' := ReconcilingSettles(s, key);
    }
  }

  /* ------------------------------------------------------- whole lives of a submission */

  // Nothing is left to do: no job, no message, no handler.
  predicate AtRest(s: State) { s.jobs == {} && s.queue == {} && s.deliveries == {} && s.works == {} }

  // A submission with its job running and nothing else going on.
  function Running(key: Key): State {
    State(Db(map[key := Row(Accepted, None)], []), {key}, {key}, map[key := []], {}, map[], {}, {}, {}, map[])
  }

  lemma Starts(key: Key)
    requires Audited(key)
    ensures Leads(START, [Submit(key, false), Launch(key)], Running(key))
  {
    TwoSteps(START, Submit(key, false), Launch(key));
  }

  // The message of its worker arrives, is handled and deleted.
  function Arriving(note: Note): seq<Action> { [Enqueue(note, 0, true), Deliver(0, 0)] }

  function Handling(): seq<Action> { [Handle(Delivery(0, 0, false), GOOD), DeleteMessage(Delivery(0, 0, true))] }

  function Arrived(note: Note): State {
    Running(note.key).(acked := {note.key}, sent := map[0 := note], queue := {0}, deliveries := {Delivery(0, 0, false)})
  }

  function Told(note: Note): State {
    var row := Settled(note.key, Row(Accepted, None), MessageOf(note));
    State(Db(map[note.key := row], [Event(note.key, row.status, row.testsPassing)]), {note.key}, {note.key},
          map[note.key := []], {note.key}, map[0 := note], {}, {}, {}, map[note.key := ByMessage(0)])
  }

  lemma MessageArrives(note: Note)
    requires Audited(note.key) && note.status in VERDICTS
    ensures Leads(Running(note.key), Arriving(note), Arrived(note))
  {
    var s0 := Running(note.key);
    var s2 := Apply(Apply(s0, Enqueue(note, 0, true)), Deliver(0, 0));
    assert s2.queue == {0} && s2.acked == {note.key} && s2.deliveries == {Delivery(0, 0, false)};
    TwoSteps(s0, Enqueue(note, 0, true), Deliver(0, 0));
  }

  lemma MessageIsHandled(note: Note)
    requires Audited(note.key) && note.status in VERDICTS
    ensures Leads(Arrived(note), Handling(), Told(note))
  {
    var d := Delivery(0, 0, false);
    var s1 := Apply(Arrived(note), Handle(d, GOOD));
    FinalMeans(Arrived(note).db, MessageOf(note), GOOD);
    assert s1.deliveries == {d.(done := true)};
    var s2 := Apply(s1, DeleteMessage(d.(done := true)));
    assert s2.queue == {} && s2.deliveries == {} && s2.db == Told(note).db;
    TwoSteps(Arrived(note), Handle(d, GOOD), DeleteMessage(d.(done := true)));
  }

  // A finished job is reported, seen, reconciled and deleted.
  function Noticing(key: Key, kind: ConditionType): seq<Action> {
    [Report(key, Condition(kind, true)), Observe(key, 1, 0)]
  }

  function SeenWork(key: Key, kind: ConditionType): Work { Work(0, key, [Condition(kind, true)], false) }

  function Removing(key: Key, kind: ConditionType): seq<Action> {
    [Settle(SeenWork(key, kind), GOOD), DeleteJob(SeenWork(key, kind).(done := true))]
  }

  // One job with no conditions yet, and no handler.
  predicate OneJob(s: State, key: Key) {
    Audited(key) && s.conditions == map[key := []] && s.jobs == {key} && s.works == {} && key in s.db.rows
  }

  lemma JobIsSeen(s: State, key: Key, kind: ConditionType)
    requires OneJob(s, key) && (kind.JobFailed? || (kind.JobComplete? && key in s.acked))
    ensures Leads(s, Noticing(key, kind),
                  s.(conditions := map[key := [Condition(kind, true)]], works := {SeenWork(key, kind)}))
  {
    var s1 := Apply(s, Report(key, Condition(kind, true)));
    assert s.conditions[key] + [Condition(kind, true)] == [Condition(kind, true)];
    assert s1.conditions == map[key := [Condition(kind, true)]];
    assert [Condition(kind, true)][..1] == [Condition(kind, true)];
    TwoSteps(s, Report(key, Condition(kind, true)), Observe(key, 1, 0));
    assert Apply(s1, Observe(key, 1, 0)).works == {SeenWork(key, kind)};
  }

  lemma JobIsRemoved(s: State, key: Key, kind: ConditionType) returns (s': State)
    requires Audited(key) && s.jobs == {key} && s.works == {SeenWork(key, kind)} && key in s.db.rows
    requires kind.JobFailed? || kind.JobComplete?
    ensures Leads(s, Removing(key, kind), s') && s'.jobs == {} && s'.works == {}
    ensures s'.queue == s.queue && s'.deliveries == s.deliveries
    ensures kind.JobComplete? ==> s'.db == s.db
    ensures kind.JobFailed? && s.db.rows[key].status == Accepted ==>
              && s'.db.rows == s.db.rows[key := Row(Errored, s.db.rows[key].testsPassing)]
              && s'.db.audit == s.db.audit + [Event(key, Errored, s.db.rows[key].testsPassing)]
  {
    var w := SeenWork(key, kind);
    assert w.conditions[0] == Condition(kind, true);
    ReconcileMeans(s.db, JobOf(w), GOOD);
    var s1 := Apply(s, Settle(w, GOOD));
    assert s1.works == {w.(done := true)};
    s' := Apply(s1, DeleteJob(w.(done := true)));
    TwoSteps(s, Settle(w, GOOD), DeleteJob(w.(done := true)));
  }

  lemma JobIsCleanedUp(s: State, key: Key, kind: ConditionType) returns (s': State)
    requires OneJob(s, key) && (kind.JobFailed? || (kind.JobComplete? && key in s.acked))
    ensures Leads(s, Noticing(key, kind) + Removing(key, kind), s') && s'.jobs == {} && s'.works == {}
    ensures s'.queue == s.queue && s'.deliveries == s.deliveries
    ensures kind.JobComplete? ==> s'.db == s.db
    ensures kind.JobFailed? && s.db.rows[key].status == Accepted ==>
              && s'.db.rows == s.db.rows[key := Row(Errored, s.db.rows[key].testsPassing)]
              && s'.db.audit == s.db.audit + [Event(key, Errored, s.db.rows[key].testsPassing)]
  {
    var seen := s.(conditions := map[key := [Condition(kind, true)]], works := {SeenWork(key, kind)});
    JobIsSeen(s, key, kind);
    s' := JobIsRemoved(seen, key, kind);
    LeadsInParts(s, Noticing(key, kind), seen, Removing(key, kind), s');
  }

  // Every verdict can run its course: from the submission to a settled row with one event, and nothing left over.
  lemma VerdictRunsItsCourse(note: Note) returns (actions: seq<Action>, s: State)
    requires Audited(note.key) && note.status in VERDICTS
    ensures Leads(START, actions, s) && AtRest(s)
    ensures s.db.rows == map[note.key := Row(note.status, if note.key.kind.PovJob? then None
                                                          else Some(!(note.status == Failed && note.testsFailed)))]
    ensures s.db.audit == [Event(note.key, note.status, s.db.rows[note.key].testsPassing)]
  {
    var key := note.key;
    var start, end := [Submit(key, false), Launch(key)], Noticing(key, JobComplete) + Removing(key, JobComplete);
    Starts(key);
    MessageArrives(note);
    MessageIsHandled(note);
    s := JobIsCleanedUp(Told(note), key, JobComplete);
    LeadsInParts(START, start, Running(key), Arriving(note), Arrived(note));
    LeadsInParts(START, start + Arriving(note), Arrived(note), Handling(), Told(note));
    LeadsInParts(START, start + Arriving(note) + Handling(), Told(note), end, s);
    actions := start + Arriving(note) + Handling() + end;
  }

  // So can a job that failed without a word: its row is settled as errored, and nothing is left over.
  lemma FailureRunsItsCourse(key: Key) returns (actions: seq<Action>, s: State)
    requires Audited(key)
    ensures Leads(START, actions, s) && AtRest(s)
    ensures s.db == Db(map[key := Row(Errored, None)], [Event(key, Errored, None)])
  {
    var start, end := [Submit(key, false), Launch(key)], Noticing(key, JobFailed) + Removing(key, JobFailed);
    Starts(key);
    s := JobIsCleanedUp(Running(key), key, JobFailed);
    LeadsInParts(START, start, Running(key), end, s);
    actions := start + end;
  }
}
