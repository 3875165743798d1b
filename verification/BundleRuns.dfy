// Interleaved bundle requests: each loads its row, and finishes later from what it loaded.
module BundleRuns {
  import opened Types
  import opened Bundle
  import opened BundleRoutes

  type Handle = nat

  // A PATCH or DELETE between the loading of its row and its end.
  datatype Pending = Pending(id: BundleId, row: Row, request: Request, deletes: bool)

  datatype State = State(bundles: Bundles, pending: map<Handle, Pending>, catalog: Catalog, clock: int)

  datatype Action =
    | Publish(item: (Table, Uuid), owner: Owner)
    | Submit(request: Request, faults: Faults)
    | Load(handle: Handle, id: BundleId, request: Request, deletes: bool)
    | Finish(handle: Handle, faults: Faults, revives: bool)

  function Start(clock: int): State { State(Bundles(map[], 0), map[], map[], clock) }

  // Requests arrive in the order of their times. A deleted row cannot be loaded.
  predicate Enabled(s: State, a: Action) {
    match a
    case Publish(item, _) => item !in s.catalog
    case Submit(request, _) => s.clock <= request.time
    case Load(handle, id, request, _) =>
      handle !in s.pending && s.clock <= request.time && id in s.bundles.rows && !s.bundles.rows[id].deleted
    case Finish(handle, _, _) => handle in s.pending
  }

  function Finished(w: World, s: State, p: Pending, faults: Faults, revives: bool): Bundles {
    if p.deletes then AfterDelete(s.bundles, w, p.id, p.row, p.request, faults)
    else AfterPatch(s.bundles, w, p.id, p.row, p.request, s.catalog, faults, revives)
  }

  function Step(w: World, s: State, a: Action): State
    requires Enabled(s, a)
  {
    match a
    case Publish(item, owner) => s.(catalog := s.catalog[item := owner])
    case Submit(request, faults) =>
      s.(bundles := AfterSubmit(s.bundles, w, request, s.catalog, faults), clock := request.time)
    case Load(handle, id, request, deletes) =>
      s.(pending := s.pending[handle := Pending(id, s.bundles.rows[id], request, deletes)], clock := request.time)
    case Finish(handle, faults, revives) =>
      s.(bundles := Finished(w, s, s.pending[handle], faults, revives), pending := s.pending - {handle})
  }

  predicate Leads(w: World, s: State, actions: seq<Action>, s': State)
    decreases |actions|
  {
    if actions == [] then s' == s
    else Enabled(s, actions[0]) && Leads(w, Step(w, s, actions[0]), actions[1..], s')
  }

  ghost predicate Reachable(w: World, s: State) {
    exists clock, actions :: Leads(w, Start(clock), actions, s)
  }

  /* ------------------------------------------------------- the invariant */

  // At least two fields, references owned by the row's submitter and task, and late rows are late for good.
  predicate Sound(w: World, row: Row, catalog: Catalog, clock: int) {
    && NonNull(row.fields) >= 2 && AllOwned(row.fields, row.owner, catalog)
    && (row.status == Accepted || row.status == DeadlineExceeded)
    && (row.status == DeadlineExceeded ==> w.deadline(row.owner.task) < clock)
  }

  predicate SameBundle(a: Row, b: Row) { a.owner == b.owner && a.status == b.status }

  predicate PendingSound(w: World, s: State, p: Pending) {
    && p.id in s.bundles.rows && SameBundle(p.row, s.bundles.rows[p.id])
    && Sound(w, p.row, s.catalog, s.clock) && !p.row.deleted
    && (p.row.status == DeadlineExceeded && p.row.owner == p.request.requester ==> !InTime(w, p.request))
  }

  ghost predicate Inv(w: World, s: State) {
    && (forall id :: id in s.bundles.rows ==> id < s.bundles.next && Sound(w, s.bundles.rows[id], s.catalog, s.clock))
    && (forall h :: h in s.pending ==> PendingSound(w, s, s.pending[h]))
  }

  predicate Grows(c: Catalog, c': Catalog) { forall item :: item in c ==> item in c' && c'[item] == c[item] }

  lemma SoundStays(w: World, row: Row, c: Catalog, clock: int, c': Catalog, clock': int)
    requires Sound(w, row, c, clock) && Grows(c, c') && clock <= clock'
    ensures Sound(w, row, c', clock')
  {
  }

  lemma ApplyKeepsOwned(fields: Fields, p: Parsed, owner: Owner, catalog: Catalog)
    requires AllOwned(fields, owner, catalog) && AllOwned(NewRefs(p), owner, catalog)
    ensures AllOwned(Apply(fields, p), owner, catalog)
  {
  }

  // What a PATCH saves is sound, however old the row it loaded.
  lemma PatchedIsSound(w: World, s: State, p: Pending, faults: Faults)
    requires PendingSound(w, s, p) && Patches(w, p.row, p.request, s.catalog, faults)
    ensures Sound(w, p.row.(fields := Apply(p.row.fields, Parse(p.request.raw, w.parse).value)), s.catalog, s.clock)
  {
    ApplyKeepsOwned(p.row.fields, Parse(p.request.raw, w.parse).value, p.row.owner, s.catalog);
  }

  lemma SubmittedIsSound(w: World, s: State, r: Request, faults: Faults)
    requires Submits(w, r, s.catalog, faults)
    ensures var row := Row(r.requester, StatusOf(w, r), Apply(NO_FIELDS, Parse(r.raw, w.parse).value), false);
            Sound(w, row, s.catalog, r.time)
  {
    var p := Parse(r.raw, w.parse).value;
    RawCountIsPresent(r.raw, w.parse);
    assert AllOwned(NO_FIELDS, r.requester, s.catalog);
    ApplyKeepsOwned(NO_FIELDS, p, r.requester, s.catalog);
  }

  // What a finishing request does to a row: at most its own row, as a deletion or as the PATCH it was checked to be.
  lemma FinishedRow(w: World, s: State, p: Pending, faults: Faults, revives: bool, id: BundleId)
    requires PendingSound(w, s, p) && id in s.bundles.rows
    ensures var b := Finished(w, s, p, faults, revives);
            && b.rows.Keys == s.bundles.rows.Keys && b.next == s.bundles.next
            && (b.rows[id] == s.bundles.rows[id]
                || (id == p.id && p.deletes && Deletes(w, p.row, p.request, faults)
                    && b.rows[id] == s.bundles.rows[id].(deleted := true))
                || (id == p.id && !p.deletes && Patches(w, p.row, p.request, s.catalog, faults)
                    && b.rows[id] == p.row.(fields := Apply(p.row.fields, Parse(p.request.raw, w.parse).value))))
  {
  }

  // No step removes a row or changes whose it is or its status.
  lemma StepKeepsIdentity(w: World, s: State, a: Action, id: BundleId)
    requires Inv(w, s) && Enabled(s, a) && id in s.bundles.rows
    ensures id in Step(w, s, a).bundles.rows && SameBundle(Step(w, s, a).bundles.rows[id], s.bundles.rows[id])
  {
    if a.Finish? {
      FinishedRow(w, s, s.pending[a.handle], a.faults, a.revives, id);
    } else if a.Submit? {
      assert id < s.bundles.next;
    }
  }

  lemma FinishKeepsRowsSound(w: World, s: State, p: Pending, faults: Faults, revives: bool, id: BundleId)
    requires PendingSound(w, s, p) && id in s.bundles.rows && Sound(w, s.bundles.rows[id], s.catalog, s.clock)
    ensures id in Finished(w, s, p, faults, revives).rows
    ensures Sound(w, Finished(w, s, p, faults, revives).rows[id], s.catalog, s.clock)
  {
    FinishedRow(w, s, p, faults, revives, id);
    if !p.deletes && Patches(w, p.row, p.request, s.catalog, faults) {
      PatchedIsSound(w, s, p, faults);
    }
  }

  lemma StepKeepsRowsSound(w: World, s: State, a: Action, id: BundleId)
    requires Inv(w, s) && Enabled(s, a) && id in Step(w, s, a).bundles.rows
    ensures var s' := Step(w, s, a);
            id < s'.bundles.next && Sound(w, s'.bundles.rows[id], s'.catalog, s'.clock)
  {
    match a {
      case Publish(item, owner) =>
        SoundStays(w, s.bundles.rows[id], s.catalog, s.clock, s.catalog[item := owner], s.clock);
      case Submit(request, faults) =>
        if id in s.bundles.rows {
          SoundStays(w, s.bundles.rows[id], s.catalog, s.clock, s.catalog, request.time);
        } else {
          SubmittedIsSound(w, s, request, faults);
        }
      case Load(_, _, request, _) =>
        SoundStays(w, s.bundles.rows[id], s.catalog, s.clock, s.catalog, request.time);
      case Finish(h, faults, revives) =>
        assert PendingSound(w, s, s.pending[h]);
        FinishedRow(w, s, s.pending[h], faults, revives, s.pending[h].id);
        FinishKeepsRowsSound(w, s, s.pending[h], faults, revives, id);
    }
  }

  lemma StepKeepsPendingSound(w: World, s: State, a: Action, h: Handle)
    requires Inv(w, s) && Enabled(s, a) && h in Step(w, s, a).pending
    ensures PendingSound(w, Step(w, s, a), Step(w, s, a).pending[h])
  {
    var s' := Step(w, s, a);
    var p := s'.pending[h];
    if h in s.pending {
      assert PendingSound(w, s, p);
      SoundStays(w, p.row, s.catalog, s.clock, s'.catalog, s'.clock);
      StepKeepsIdentity(w, s, a, p.id);
    } else {
      SoundStays(w, p.row, s.catalog, s.clock, s'.catalog, s'.clock);
    }
  }

  lemma EveryActionKeeps(w: World, s: State, a: Action)
    requires Inv(w, s) && Enabled(s, a)
    ensures Inv(w, Step(w, s, a))
  {
    var s' := Step(w, s, a);
    forall id | id in s'.bundles.rows
      ensures id < s'.bundles.next && Sound(w, s'.bundles.rows[id], s'.catalog, s'.clock)
    {
      StepKeepsRowsSound(w, s, a, id);
    }
    forall h | h in s'.pending
      ensures PendingSound(w, s', s'.pending[h])
    {
      StepKeepsPendingSound(w, s, a, h);
    }
  }

  lemma {:induction false} EveryRunKeeps(w: World, s: State, actions: seq<Action>, s': State)
    requires Inv(w, s) && Leads(w, s, actions, s')
    ensures Inv(w, s')
    decreases |actions|
  {
    if actions != [] {
      EveryActionKeeps(w, s, actions[0]);
      EveryRunKeeps(w, Step(w, s, actions[0]), actions[1..], s');
    }
  }

  // The reference is there, belongs to this task, and to this submitter unless it is a broadcast.
  predicate Belongs(catalog: Catalog, table: Table, id: Uuid, owner: Owner) {
    && (table, id) in catalog && catalog[(table, id)].task == owner.task
    && (table != BroadcastTable ==> catalog[(table, id)].submitter == owner.submitter)
  }

  // Under any interleaving a stored bundle keeps two fields, and what it refers to exists and is its task's
  // and, but for broadcast SARIFs, its submitter's.
  lemma StoredBundlesAreSound(w: World, s: State, id: BundleId)
    requires Reachable(w, s) && id in s.bundles.rows
    ensures NonNull(s.bundles.rows[id].fields) >= 2
    ensures exists a, b :: a != b && Get(s.bundles.rows[id].fields, a).Some? && Get(s.bundles.rows[id].fields, b).Some?
    ensures AllOwned(s.bundles.rows[id].fields, s.bundles.rows[id].owner, s.catalog)
    ensures var f, owner := s.bundles.rows[id].fields, s.bundles.rows[id].owner;
            && (f.pov.Some? ==> Belongs(s.catalog, PovTable, f.pov.value, owner))
            && (f.patch.Some? ==> Belongs(s.catalog, PatchTable, f.patch.value, owner))
            && (f.submittedSarif.Some? ==> Belongs(s.catalog, SarifTable, f.submittedSarif.value, owner))
            && (f.broadcastSarif.Some? ==> Belongs(s.catalog, BroadcastTable, f.broadcastSarif.value, owner))
            && (f.freeform.Some? ==> Belongs(s.catalog, FreeformTable, f.freeform.value, owner))
  {
    TwoFields(s.bundles.rows[id].fields);
    var clock, actions :| Leads(w, Start(clock), actions, s);
    EveryRunKeeps(w, Start(clock), actions, s);
  }

  /* ------------------------------------------------------- who may change a row */

  // A row is changed only when a request finishes that its owner sent before the deadline, while it was accepted.
  lemma ChangesAreInTime(w: World, s: State, a: Action, id: BundleId)
    requires Inv(w, s) && Enabled(s, a) && id in s.bundles.rows
    requires id in Step(w, s, a).bundles.rows && Step(w, s, a).bundles.rows[id] != s.bundles.rows[id]
    ensures a.Finish? && s.pending[a.handle].id == id
    ensures var request := s.pending[a.handle].request;
            InTime(w, request) && request.requester == s.bundles.rows[id].owner && s.bundles.rows[id].status == Accepted
  {
    assert id < s.bundles.next;
    assert a.Finish?;
    FinishedRow(w, s, s.pending[a.handle], a.faults, a.revives, id);
  }

  lemma {:induction false} LateRowsStay(w: World, s: State, actions: seq<Action>, s': State, id: BundleId)
    requires Inv(w, s) && Leads(w, s, actions, s') && id in s.bundles.rows
    ensures id in s'.bundles.rows && SameBundle(s'.bundles.rows[id], s.bundles.rows[id])
    ensures s.bundles.rows[id].status == DeadlineExceeded ==> s'.bundles.rows[id] == s.bundles.rows[id]
    decreases |actions|
  {
    if actions != [] {
      var next := Step(w, s, actions[0]);
      EveryActionKeeps(w, s, actions[0]);
      StepKeepsIdentity(w, s, actions[0], id);
      if next.bundles.rows[id] != s.bundles.rows[id] {
        ChangesAreInTime(w, s, actions[0], id);
      }
      LateRowsStay(w, next, actions[1..], s', id);
    }
  }

  lemma ReachableInv(w: World, s: State)
    requires Reachable(w, s)
    ensures Inv(w, s)
  {
    var clock, actions :| Leads(w, Start(clock), actions, s);
    EveryRunKeeps(w, Start(clock), actions, s);
  }

  // Whose a bundle is and its status never change, and a late bundle is never changed or deleted at all.
  lemma LateBundlesStay(w: World, s: State, actions: seq<Action>, s': State, id: BundleId)
    requires Reachable(w, s) && Leads(w, s, actions, s') && id in s.bundles.rows
    ensures id in s'.bundles.rows && SameBundle(s'.bundles.rows[id], s.bundles.rows[id])
    ensures s.bundles.rows[id].status == DeadlineExceeded ==> s'.bundles.rows[id] == s.bundles.rows[id]
  {
    ReachableInv(w, s);
    LateRowsStay(w, s, actions, s', id);
  }

  /* ------------------------------------------------------- deletion */

  // No save of these steps brings a deleted row back.
  predicate NoneRevives(actions: seq<Action>) {
    forall i :: 0 <= i < |actions| && actions[i].Finish? ==> !actions[i].revives
  }

  lemma {:induction false} DeletedStays(w: World, s: State, actions: seq<Action>, s': State, id: BundleId)
    requires Inv(w, s) && Leads(w, s, actions, s') && NoneRevives(actions)
    requires id in s.bundles.rows && s.bundles.rows[id].deleted
    ensures id in s'.bundles.rows && s'.bundles.rows[id] == s.bundles.rows[id]
    decreases |actions|
  {
    if actions != [] {
      EveryActionKeeps(w, s, actions[0]);
      StepKeepsDeleted(w, s, actions[0], id);
      assert NoneRevives(actions[1..]);
      DeletedStays(w, Step(w, s, actions[0]), actions[1..], s', id);
    }
  }

  lemma StepKeepsDeleted(w: World, s: State, a: Action, id: BundleId)
    requires Inv(w, s) && Enabled(s, a) && (a.Finish? ==> !a.revives)
    requires id in s.bundles.rows && s.bundles.rows[id].deleted
    ensures id in Step(w, s, a).bundles.rows && Step(w, s, a).bundles.rows[id] == s.bundles.rows[id]
  {
    assert id < s.bundles.next;
    if a.Finish? {
      var p := s.pending[a.handle];
      if p.deletes {
        DeleteMeans(s.bundles, w, p.id, p.row, p.request, a.faults);
      } else if Patches(w, p.row, p.request, s.catalog, a.faults) {
        PatchMeans(s.bundles, w, p.id, p.row, p.request, s.catalog, a.faults, a.revives, PovField);
      }
    }
  }

  lemma FinishedDelete(w: World, s: State, h: Handle)
    requires Inv(w, s) && h in s.pending && s.pending[h].deletes && s.pending[h].id in s.bundles.rows
    requires s.pending[h].request.requester == s.bundles.rows[s.pending[h].id].owner
    requires s.pending[h].request.time <= w.deadline(s.pending[h].request.requester.task)
    ensures var s' := Step(w, s, Finish(h, Faults(false, false), false));
            var id := s.pending[h].id;
            Inv(w, s') && id in s'.bundles.rows && s'.bundles.rows[id] == s.bundles.rows[id].(deleted := true)
  {
    var p := s.pending[h];
    assert PendingSound(w, s, p);
    DeleteMeans(s.bundles, w, p.id, p.row, p.request, Faults(false, false));
    EveryActionKeeps(w, s, Finish(h, Faults(false, false), false));
  }

  // A DELETE its owner sent in time takes the bundle away when it finishes: the row is marked and otherwise kept,
  // and no request can load it any more, whatever else happens, unless a stale PATCH's save brings it back.
  lemma DeletedIsGone(w: World, s: State, h: Handle, later: seq<Action>, s': State, handle: Handle, r: Request,
                      deletes: bool)
    requires Reachable(w, s) && h in s.pending && s.pending[h].deletes && s.pending[h].id in s.bundles.rows
    requires s.pending[h].request.requester == s.bundles.rows[s.pending[h].id].owner
    requires s.pending[h].request.time <= w.deadline(s.pending[h].request.requester.task)
    requires Leads(w, Step(w, s, Finish(h, Faults(false, false), false)), later, s') && NoneRevives(later)
    ensures var id := s.pending[h].id;
            && id in s'.bundles.rows && s'.bundles.rows[id] == s.bundles.rows[id].(deleted := true)
            && !Enabled(s', Load(handle, id, r, deletes))
  {
    ReachableInv(w, s);
    FinishedDelete(w, s, h);
    DeletedStays(w, Step(w, s, Finish(h, Faults(false, false), false)), later, s', s.pending[h].id);
  }

  /* ------------------------------------------------------- one PATCH after the other */

  // One PATCH of a serial run, with what exists when it is checked.
  datatype Attempt = Attempt(request: Request, faults: Faults, catalog: Catalog)

  // The row after each PATCH in turn was loaded and finished.
  function Serially(w: World, row: Row, attempts: seq<Attempt>): Row {
    if attempts == [] then row
    else
      var before := Serially(w, row, attempts[..|attempts| - 1]);
      var last := attempts[|attempts| - 1];
      if Patches(w, before, last.request, last.catalog, last.faults) then
        before.(fields := Apply(before.fields, Parse(last.request.raw, w.parse).value))
      else before
  }

  // The PATCH at this position was accepted and says something about the field.
  predicate Defines(w: World, row: Row, attempts: seq<Attempt>, field: Field, k: nat)
    requires k < |attempts|
  {
    var a := attempts[k];
    && Patches(w, Serially(w, row, attempts[..k]), a.request, a.catalog, a.faults)
    && Asked(Parse(a.request.raw, w.parse).value, field).defined
  }

  lemma ApplyDefines(stored: Fields, p: Parsed, field: Field)
    ensures Get(Apply(stored, p), field)
         == if Asked(p, field).defined then Asked(p, field).value else Get(stored, field)
  {
    ApplyByField(stored, p, field);
  }

  lemma FieldStays(w: World, row: Row, attempts: seq<Attempt>, field: Field, n: nat)
    requires n <= |attempts|
    requires forall k: nat :: n <= k < |attempts| ==> !Defines(w, row, attempts, field, k)
    ensures Get(Serially(w, row, attempts).fields, field) == Get(Serially(w, row, attempts[..n]).fields, field)
    decreases |attempts|
  {
    if n == |attempts| {
      assert attempts[..n] == attempts;
    } else {
      var m: nat := |attempts| - 1;
      assert !Defines(w, row, attempts, field, m);
      forall k: nat | n <= k < m ensures !Defines(w, row, attempts[..m], field, k) {
        assert attempts[..m][..k] == attempts[..k];
        assert !Defines(w, row, attempts, field, k);
      }
      FieldStays(w, row, attempts[..m], field, n);
      assert attempts[..m][..n] == attempts[..n];
      var before := Serially(w, row, attempts[..m]);
      var last := attempts[m];
      if Patches(w, before, last.request, last.catalog, last.faults) {
        ApplyDefines(before.fields, Parse(last.request.raw, w.parse).value, field);
      }
    }
  }

  // No accepted PATCH after position k says anything about the field.
  predicate SilentAfter(w: World, row: Row, attempts: seq<Attempt>, field: Field, k: int) {
    forall j: nat :: k < j < |attempts| ==> !Defines(w, row, attempts, field, j)
  }

  lemma DefinitionStays(w: World, row: Row, attempts: seq<Attempt>, field: Field, k: nat)
    requires k < |attempts| && Defines(w, row, attempts, field, k) && SilentAfter(w, row, attempts, field, k)
    ensures Get(Serially(w, row, attempts).fields, field)
         == Asked(Parse(attempts[k].request.raw, w.parse).value, field).value
  {
    FieldStays(w, row, attempts, field, k + 1);
    assert attempts[..k + 1][..k] == attempts[..k];
    ApplyDefines(Serially(w, row, attempts[..k]).fields, Parse(attempts[k].request.raw, w.parse).value, field);
  }

  // Each field is what the last accepted PATCH that defined it says (null clears), or else what it was.
  lemma LastDefinitionWins(w: World, row: Row, attempts: seq<Attempt>, field: Field)
    ensures SilentAfter(w, row, attempts, field, -1) ==>
              Get(Serially(w, row, attempts).fields, field) == Get(row.fields, field)
    ensures forall k: nat ::
              k < |attempts| && Defines(w, row, attempts, field, k) && SilentAfter(w, row, attempts, field, k) ==>
                Get(Serially(w, row, attempts).fields, field)
                == Asked(Parse(attempts[k].request.raw, w.parse).value, field).value
  {
    if SilentAfter(w, row, attempts, field, -1) {
      FieldStays(w, row, attempts, field, 0);
      assert attempts[..0] == [];
    }
    forall k: nat | k < |attempts| && Defines(w, row, attempts, field, k) && SilentAfter(w, row, attempts, field, k)
      ensures Get(Serially(w, row, attempts).fields, field)
              == Asked(Parse(attempts[k].request.raw, w.parse).value, field).value
    {
      DefinitionStays(w, row, attempts, field, k);
    }
  }

  function SerialActions(h: Handle, id: BundleId, attempts: seq<Attempt>): seq<Action> {
    if attempts == [] then []
    else
      var last := attempts[|attempts| - 1];
      SerialActions(h, id, attempts[..|attempts| - 1])
      + [Load(h, id, last.request, false), Finish(h, last.faults, false)]
  }

  lemma {:induction false} LeadsInParts(w: World, s: State, a: seq<Action>, mid: State, b: seq<Action>, s': State)
    requires Leads(w, s, a, mid) && Leads(w, mid, b, s')
    ensures Leads(w, s, a + b, s')
    decreases |a|
  {
    if a == [] {
      assert a + b == b;
    } else {
      assert (a + b)[1..] == a[1..] + b;
      LeadsInParts(w, Step(w, s, a[0]), a[1..], mid, b, s');
    }
  }

  predicate InOrder(clock: int, attempts: seq<Attempt>) {
    && (forall k :: 0 <= k < |attempts| ==> clock <= attempts[k].request.time)
    && (forall j, k :: 0 <= j < k < |attempts| ==> attempts[j].request.time <= attempts[k].request.time)
  }

  function ClockAfter(clock: int, attempts: seq<Attempt>): int {
    if attempts == [] then clock else attempts[|attempts| - 1].request.time
  }

  // The state after the bundle's row has become the given one, at the given time.
  function Now(s: State, id: BundleId, row: Row, clock: int): State {
    s.(bundles := s.bundles.(rows := s.bundles.rows[id := row]), clock := clock)
  }

  lemma OnePatch(w: World, s: State, h: Handle, id: BundleId, a: Attempt)
    requires id in s.bundles.rows && !s.bundles.rows[id].deleted && h !in s.pending
    requires s.clock <= a.request.time && a.catalog == s.catalog
    ensures Leads(w, s, [Load(h, id, a.request, false), Finish(h, a.faults, false)],
                  Now(s, id, Serially(w, s.bundles.rows[id], [a]), a.request.time))
  {
    var load, finish := Load(h, id, a.request, false), Finish(h, a.faults, false);
    var mid := Step(w, s, load);
    var s' := Step(w, mid, finish);
    assert s'.pending == s.pending;
    assert [a][..0] == [];
    var row := s.bundles.rows[id];
    assert s'.bundles.rows == s.bundles.rows[id := Serially(w, row, [a])];
    assert [load, finish][1..] == [finish];
    assert [finish][1..] == [];
    assert Leads(w, mid, [finish], s');
  }

  // Run alone, one after the other, PATCHes leave the stored row as the list of them says.
  lemma {:induction false} SerialRun(w: World, s: State, h: Handle, id: BundleId, attempts: seq<Attempt>)
    requires id in s.bundles.rows && !s.bundles.rows[id].deleted && h !in s.pending
    requires InOrder(s.clock, attempts) && forall k :: 0 <= k < |attempts| ==> attempts[k].catalog == s.catalog
    ensures !Serially(w, s.bundles.rows[id], attempts).deleted
    ensures Leads(w, s, SerialActions(h, id, attempts),
                  Now(s, id, Serially(w, s.bundles.rows[id], attempts), ClockAfter(s.clock, attempts)))
    decreases |attempts|
  {
    var row := s.bundles.rows[id];
    if attempts == [] {
      assert s.bundles.rows[id := row] == s.bundles.rows;
    } else {
      var m := |attempts| - 1;
      var a := attempts[m];
      SerialRun(w, s, h, id, attempts[..m]);
      var before := Serially(w, row, attempts[..m]);
      var mid := Now(s, id, before, ClockAfter(s.clock, attempts[..m]));
      OnePatch(w, mid, h, id, a);
      var after := Serially(w, row, attempts);
      assert after == Serially(w, before, [a]) by {
        assert [a][..0] == [];
      }
      assert Now(mid, id, after, a.request.time) == Now(s, id, after, a.request.time) by {
        assert mid.bundles.rows[id := after] == s.bundles.rows[id := after];
      }
      var last := [Load(h, id, a.request, false), Finish(h, a.faults, false)];
      LeadsInParts(w, s, SerialActions(h, id, attempts[..m]), mid, last, Now(s, id, after, a.request.time));
    }
  }

  /* ------------------------------------------------------- stale PATCHes */

  function NewFields(w: World, fields: Fields, r: Request): Fields
    requires Parse(r.raw, w.parse).Ok?
  {
    Apply(fields, Parse(r.raw, w.parse).value)
  }

  // An accepted PATCH on a live row gives a field another value than it would on the row as it is now
  // exactly when it says nothing about the field and the field is no longer what the PATCH has loaded.
  lemma StalePatch(w: World, s: State, h: Handle, faults: Faults, revives: bool, field: Field)
    requires h in s.pending && s.pending[h].id in s.bundles.rows && !s.pending[h].deletes
    requires !s.bundles.rows[s.pending[h].id].deleted
    requires Patches(w, s.pending[h].row, s.pending[h].request, s.catalog, faults)
    ensures var p := s.pending[h];
            var now, after := s.bundles.rows[p.id], Step(w, s, Finish(h, faults, revives)).bundles.rows[p.id];
            && after.fields == NewFields(w, p.row.fields, p.request)
            && (Get(after.fields, field) != Get(NewFields(w, now.fields, p.request), field) <==>
                !Asked(Parse(p.request.raw, w.parse).value, field).defined
                && Get(now.fields, field) != Get(p.row.fields, field))
  {
    var p := s.pending[h];
    ApplyDefines(p.row.fields, Parse(p.request.raw, w.parse).value, field);
    ApplyDefines(s.bundles.rows[p.id].fields, Parse(p.request.raw, w.parse).value, field);
  }

  // Of two accepted PATCHes in flight, the second to finish undoes what the first left in a field exactly when
  // it says nothing about the field and had loaded another value, whenever either of them loaded the row.
  lemma StalePair(w: World, s: State, first: Handle, second: Handle, revives: bool, field: Field)
    requires first in s.pending && second in s.pending && first != second
    requires var a, b := s.pending[first], s.pending[second];
             && a.id == b.id && a.id in s.bundles.rows && !s.bundles.rows[a.id].deleted && !a.deletes && !b.deletes
             && Patches(w, a.row, a.request, s.catalog, Faults(false, false))
             && Patches(w, b.row, b.request, s.catalog, Faults(false, false))
    ensures var a, b := s.pending[first], s.pending[second];
            var mid := Step(w, s, Finish(first, Faults(false, false), revives));
            var end := Step(w, mid, Finish(second, Faults(false, false), revives));
            var left := NewFields(w, a.row.fields, a.request);
            && mid.bundles.rows[a.id].fields == left
            && (Get(end.bundles.rows[a.id].fields, field) != Get(NewFields(w, left, b.request), field) <==>
                !Asked(Parse(b.request.raw, w.parse).value, field).defined
                && Get(left, field) != Get(b.row.fields, field))
  {
    var mid := Step(w, s, Finish(first, Faults(false, false), revives));
    StalePatch(w, s, first, Faults(false, false), revives, field);
    StalePatch(w, mid, second, Faults(false, false), revives, field);
  }

  const TEAM: Owner := Owner(1, 1)
  const SILENT: Submission :=
    var absent := Optional(false, None);
    Submission(absent, absent, absent, absent, absent, absent)

  function Given(text: string): Optional<string> { Optional(true, Some(text)) }

  // Texts of one character are identifiers, and every deadline is at 10.
  function SmallWorld(): World {
    World((text: string) => if |text| == 1 then Some(text[0] as nat) else None, (task: Uuid) => 10)
  }

  function Sends(raw: Submission): Request { Request(TEAM, 5, raw) }

  const NEW_BUNDLE: Request := Sends(SILENT.(pov := Given("v"), description := Given("first")))
  const SET_PATCH: Request := Sends(SILENT.(patch := Given("p")))
  const SET_POV: Request := Sends(SILENT.(pov := Given("w")))

  // A PATCH that sets no reference is never accepted, whatever it says otherwise.
  lemma NoReferenceIsRefused(w: World, row: Row, r: Request, catalog: Catalog, faults: Faults)
    requires Parse(r.raw, w.parse).Ok? && !SetsReference(Parse(r.raw, w.parse).value)
    ensures !Patches(w, row, r, catalog, faults)
    ensures Clauses(Parse(r.raw, w.parse).value) == []
  {
    QueryMeaning(Parse(r.raw, w.parse).value, row.owner, catalog);
  }

  // An instance: the owner of a bundle gives it a new description in time, and is refused.
  lemma DescriptionOnlyIsRefused(w: World, row: Row, text: string, time: int, catalog: Catalog, faults: Faults)
    requires NonNull(row.fields) >= 2 && time <= w.deadline(row.owner.task)
    ensures var r := Request(row.owner, time, SILENT.(description := Given(text)));
            ReachesCheck(w, row, r) && !Patches(w, row, r, catalog, faults)
  {
    var r := Request(row.owner, time, SILENT.(description := Given(text)));
    ParseMeaning(r.raw, w.parse);
    NoReferenceIsRefused(w, row, r, catalog, faults);
  }

  // A bundle with a POV.
  function Setup(): seq<Action> {
    [Publish((PovTable, 'v' as nat), TEAM), Publish((PovTable, 'w' as nat), TEAM),
     Publish((PatchTable, 'p' as nat), TEAM), Submit(NEW_BUNDLE, Faults(false, false))]
  }

  // One PATCH adds a patch to it while another one, already loaded, changes the POV.
  function Race(): seq<Action> {
    [Load(1, 0, SET_PATCH, false), Load(2, 0, SET_POV, false), Finish(1, Faults(false, false), false)]
  }

  function Items(): Catalog {
    map[(PovTable, 'v' as nat) := TEAM][(PovTable, 'w' as nat) := TEAM][(PatchTable, 'p' as nat) := TEAM]
  }

  const FIRST_FIELDS: Fields := NO_FIELDS.(pov := Some('v' as nat), description := Some("first"))
  const FIRST_ROW: Row := Row(TEAM, Accepted, FIRST_FIELDS, false)

  lemma AllAccepted()
    ensures var w, ok := SmallWorld(), Faults(false, false);
            && Submits(w, NEW_BUNDLE, Items(), ok)
            && Apply(NO_FIELDS, Parse(NEW_BUNDLE.raw, w.parse).value) == FIRST_FIELDS
            && Patches(w, FIRST_ROW, SET_PATCH, Items(), ok)
            && Apply(FIRST_FIELDS, Parse(SET_PATCH.raw, w.parse).value) == FIRST_FIELDS.(patch := Some('p' as nat))
            && Patches(w, FIRST_ROW, SET_POV, Items(), ok)
            && Apply(FIRST_FIELDS, Parse(SET_POV.raw, w.parse).value) == FIRST_FIELDS.(pov := Some('w' as nat))
  {
  }

  lemma Before(w: World, s: State, first: Action, rest: seq<Action>, s': State)
    requires Enabled(s, first) && Leads(w, Step(w, s, first), rest, s')
    ensures Leads(w, s, [first] + rest, s')
  {
    assert ([first] + rest)[1..] == rest;
  }

  predicate Loses(s: State) {
    && 0 in s.bundles.rows && s.bundles.rows[0].fields.patch == Some('p' as nat)
    && Enabled(s, Finish(2, Faults(false, false), false))
    && var rows := Step(SmallWorld(), s, Finish(2, Faults(false, false), false)).bundles.rows;
       0 in rows && rows[0].fields.patch == None && rows[0].fields.pov == Some('w' as nat)
  }

  function SetUp(): State { State(Bundles(map[0 := FIRST_ROW], 1), map[], Items(), 5) }

  lemma SetupRuns()
    ensures Leads(SmallWorld(), Start(0), Setup(), SetUp())
  {
    var w, run := SmallWorld(), Setup();
    AllAccepted();
    var s0 := Start(0);
    var s1 := Step(w, s0, run[0]);
    var s2 := Step(w, s1, run[1]);
    var s3 := Step(w, s2, run[2]);
    Before(w, s3, run[3], [], SetUp());
    Before(w, s2, run[2], run[3..], SetUp());
    Before(w, s1, run[1], run[2..], SetUp());
    Before(w, s0, run[0], run[1..], SetUp());
  }

  // Interleaved, the last definition does not win: an accepted field is gone after a PATCH that does not mention it.
  lemma LostUpdate()
    ensures exists s :: Leads(SmallWorld(), Start(0), Setup() + Race(), s) && Loses(s)
  {
    var w, run := SmallWorld(), Race();
    AllAccepted();
    var s0 := SetUp();
    var s1 := Step(w, s0, run[0]);
    var s2 := Step(w, s1, run[1]);
    var s3 := Step(w, s2, run[2]);
    assert Loses(s3);
    Before(w, s2, run[2], [], s3);
    Before(w, s1, run[1], run[2..], s3);
    Before(w, s0, run[0], run[1..], s3);
    SetupRuns();
    LeadsInParts(w, Start(0), Setup(), s0, Race(), s3);
  }
}
