// The three bundle requests, over the table of bundles.
module BundleRoutes {
  import opened Types
  import opened Bundle

  type BundleId = nat

  datatype Row = Row(owner: Owner, status: Status, fields: Fields, deleted: bool)

  // The table and the identifier of the next insert.
  datatype Bundles = Bundles(rows: map<BundleId, Row>, next: BundleId)

  // What no request changes: how identifiers are read, and the deadline of each task.
  datatype World = World(parse: string -> Option<Uuid>, deadline: Uuid -> int)

  // A request after authentication: who sent it for which task, when it arrived, and its body.
  datatype Request = Request(requester: Owner, time: int, raw: Submission)

  // Which of a request's statements fail. A failed statement changes nothing.
  datatype Faults = Faults(query: bool, write: bool)

  datatype Response = Stored(id: BundleId, status: Status) | Deleted | NotFound | BadRequest | ServerError

  predicate InTime(w: World, r: Request) { r.time <= w.deadline(r.requester.task) }

  function StatusOf(w: World, r: Request): Status { if InTime(w, r) then Accepted else DeadlineExceeded }

  predicate Submits(w: World, r: Request, catalog: Catalog, faults: Faults) {
    && RawCount(r.raw) >= 2 && Parse(r.raw, w.parse).Ok?
    && RelationsValid(Parse(r.raw, w.parse).value, r.requester, catalog)
    && faults == Faults(false, false)
  }

  // The PATCH gets as far as the ownership check, which changes the loaded bundle.
  predicate ReachesCheck(w: World, row: Row, r: Request) {
    && row.owner == r.requester && InTime(w, r) && Parse(r.raw, w.parse).Ok?
    && NonNull(Apply(row.fields, Parse(r.raw, w.parse).value)) >= 2
  }

  predicate Patches(w: World, row: Row, r: Request, catalog: Catalog, faults: Faults) {
    && ReachesCheck(w, row, r)
    && RelationsValid(Parse(r.raw, w.parse).value, row.owner, catalog)
    && faults == Faults(false, false)
  }

  predicate Deletes(w: World, row: Row, r: Request, faults: Faults) {
    row.owner == r.requester && InTime(w, r) && !faults.write
  }

  function AfterSubmit(b: Bundles, w: World, r: Request, catalog: Catalog, faults: Faults): Bundles {
    if Submits(w, r, catalog, faults) then
      var fields := Apply(NO_FIELDS, Parse(r.raw, w.parse).value);
      Bundles(b.rows[b.next := Row(r.requester, StatusOf(w, r), fields, false)], b.next + 1)
    else b
  }

  // Saves a whole row. Whether that brings back a row deleted meanwhile is left open.
  function Saved(b: Bundles, id: BundleId, row: Row, revives: bool): Bundles {
    if id in b.rows && b.rows[id].deleted && !revives then b
    else b.(rows := b.rows[id := row.(deleted := false)])
  }

  // A PATCH writes the row it loaded, changed by its fields, whatever is stored by now.
  function AfterPatch(b: Bundles, w: World, id: BundleId, loaded: Row, r: Request, catalog: Catalog,
                      faults: Faults, revives: bool): Bundles
  {
    if Patches(w, loaded, r, catalog, faults) then
      Saved(b, id, loaded.(fields := Apply(loaded.fields, Parse(r.raw, w.parse).value)), revives)
    else b
  }

  function AfterDelete(b: Bundles, w: World, id: BundleId, loaded: Row, r: Request, faults: Faults): Bundles {
    if Deletes(w, loaded, r, faults) && id in b.rows then b.(rows := b.rows[id := b.rows[id].(deleted := true)])
    else b
  }

  class Handler {
    const w: World
    var bundles: Bundles

    constructor (w: World)
      ensures this.w == w && bundles == Bundles(map[], 0)
    {
      this.w, bundles := w, Bundles(map[], 0);
    }

    method SubmitBundle(r: Request, catalog: Catalog, faults: Faults) returns (response: Response)
      modifies this
      ensures bundles == AfterSubmit(old(bundles), w, r, catalog, faults)
      ensures response.Stored? <==> Submits(w, r, catalog, faults)
      ensures response.Stored? ==> response == Stored(old(bundles).next, StatusOf(w, r))
      ensures response.BadRequest? <==> RawCount(r.raw) < 2 || Parse(r.raw, w.parse).Error?
      ensures response.NotFound? <==>
                && RawCount(r.raw) >= 2 && Parse(r.raw, w.parse).Ok? && !faults.query
                && !AllOwned(NewRefs(Parse(r.raw, w.parse).value), r.requester, catalog)
    {
      var enough := ValidateFieldCount(r.raw);
      if !enough {
        return BadRequest;
      }
      var parsed := Parse(r.raw, w.parse);
      if parsed.Error? {
        return BadRequest;
      }
      NewBundleSetsReference(r.raw, w.parse);
      var bundle := new Loaded(r.requester, Accepted, NO_FIELDS);
      if r.time > w.deadline(r.requester.task) {
        bundle.status := DeadlineExceeded;
      }
      var valid := bundle.CheckAndSetRelations(parsed.value, catalog, faults.query);
      if valid.Error? {
        return ServerError;
      }
      if !valid.value {
        return NotFound;
      }
      if faults.write {
        return ServerError;
      }
      var id := bundles.next;
      bundles := Bundles(bundles.rows[id := Row(bundle.owner, bundle.status, bundle.fields, false)], id + 1);
      response := Stored(id, bundle.status);
    }

    // A refused PATCH stores nothing, though past the count it has changed the loaded bundle.
    method PatchBundle(id: BundleId, bundle: Loaded, r: Request, catalog: Catalog, faults: Faults, revives: bool)
      returns (response: Response)
      modifies this, bundle`fields
      ensures var loaded := Row(bundle.owner, old(bundle.status), old(bundle.fields), false);
              && bundles == AfterPatch(old(bundles), w, id, loaded, r, catalog, faults, revives)
              && (response.Stored? <==> Patches(w, loaded, r, catalog, faults))
              && bundle.fields == (if ReachesCheck(w, loaded, r) then Apply(loaded.fields, Parse(r.raw, w.parse).value)
                                   else loaded.fields)
              && (response.BadRequest? <==> bundle.owner == r.requester && !ReachesCheck(w, loaded, r))
              && (response.NotFound? <==>
                  || bundle.owner != r.requester
                  || (&& ReachesCheck(w, loaded, r) && !faults.query && SetsReference(Parse(r.raw, w.parse).value)
                      && !AllOwned(NewRefs(Parse(r.raw, w.parse).value), bundle.owner, catalog)))
      ensures response.Stored? ==> response == Stored(id, bundle.status)
    {
      if bundle.owner != r.requester {
        return NotFound;
      }
      if r.time > w.deadline(r.requester.task) {
        return BadRequest;
      }
      var parsed := Parse(r.raw, w.parse);
      if parsed.Error? {
        return BadRequest;
      }
      var countSet := bundle.CountNotNull(parsed.value);
      if countSet < 2 {
        return BadRequest;
      }
      var valid := bundle.CheckAndSetRelations(parsed.value, catalog, faults.query);
      if valid.Error? {
        return ServerError;
      }
      if !valid.value {
        return NotFound;
      }
      if faults.write {
        return ServerError;
      }
      Save(id, bundle, revives);
      response := Stored(id, bundle.status);
    }

    method Save(id: BundleId, bundle: Loaded, revives: bool)
      modifies this
      ensures bundles == Saved(old(bundles), id, Row(bundle.owner, bundle.status, bundle.fields, false), revives)
    {
      if !(id in bundles.rows && bundles.rows[id].deleted && !revives) {
        bundles := bundles.(rows := bundles.rows[id := Row(bundle.owner, bundle.status, bundle.fields, false)]);
      }
    }

    method DeleteBundle(id: BundleId, bundle: Loaded, r: Request, faults: Faults) returns (response: Response)
      modifies this
      ensures var loaded := Row(bundle.owner, bundle.status, bundle.fields, false);
              && bundles == AfterDelete(old(bundles), w, id, loaded, r, faults)
              && (response.Deleted? <==> Deletes(w, loaded, r, faults))
              && (response.Deleted? && id in old(bundles).rows ==> id in bundles.rows && bundles.rows[id].deleted)
              && (response.NotFound? <==> bundle.owner != r.requester)
              && (response.BadRequest? <==> bundle.owner == r.requester && !InTime(w, r))
    {
      if bundle.owner != r.requester {
        return NotFound;
      }
      if r.time > w.deadline(r.requester.task) {
        return BadRequest;
      }
      if faults.write {
        return ServerError;
      }
      if id in bundles.rows {
        bundles := bundles.(rows := bundles.rows[id := bundles.rows[id].(deleted := true)]);
      }
      response := Deleted;
    }
  }

  /* ------------------------------------------------------- what an accepted request does */

  // Nothing but this row is changed.
  predicate OnlyRow(b: Bundles, b': Bundles, id: BundleId) {
    b'.rows.Keys == b.rows.Keys && b'.next == b.next && forall k :: k in b.rows && k != id ==> b'.rows[k] == b.rows[k]
  }

  // A DELETE by the row's owner, no later than the deadline, leaves the stored row deleted and otherwise as it is;
  // any other leaves everything as it is.
  lemma DeleteMeans(b: Bundles, w: World, id: BundleId, loaded: Row, r: Request, faults: Faults)
    requires id in b.rows
    ensures var b' := AfterDelete(b, w, id, loaded, r, faults);
            var accepted := loaded.owner == r.requester && r.time <= w.deadline(r.requester.task) && !faults.write;
            && OnlyRow(b, b', id) && (accepted <==> Deletes(w, loaded, r, faults))
            && b'.rows[id] == (if accepted then Row(b.rows[id].owner, b.rows[id].status, b.rows[id].fields, true)
                               else b.rows[id])
  {
  }

  // An accepted POST adds one live row under a new identifier, owned by the requester, late iff it came after the
  // deadline, with exactly the fields it sets.
  lemma SubmitMeans(b: Bundles, w: World, r: Request, catalog: Catalog, faults: Faults, field: Field)
    requires Submits(w, r, catalog, faults) && b.next !in b.rows
    ensures var b' := AfterSubmit(b, w, r, catalog, faults);
            && b'.rows.Keys == b.rows.Keys + {b.next} && b'.next > b.next
            && (forall k :: k in b.rows ==> b'.rows[k] == b.rows[k])
            && var row := b'.rows[b.next];
               && row.owner == r.requester && !row.deleted
               && row.status == (if r.time > w.deadline(r.requester.task) then DeadlineExceeded else Accepted)
               && var asked := Asked(Parse(r.raw, w.parse).value, field);
                  Get(row.fields, field) == if asked.defined then asked.value else None
  {
    ApplyByField(NO_FIELDS, Parse(r.raw, w.parse).value, field);
  }

  // An accepted PATCH writes the row it loaded with what it defines, over a live row or reviving a deleted one;
  // a deleted row that is not revived stays. Nothing else changes.
  lemma PatchMeans(b: Bundles, w: World, id: BundleId, loaded: Row, r: Request, catalog: Catalog, faults: Faults,
                   revives: bool, field: Field)
    requires id in b.rows && Patches(w, loaded, r, catalog, faults)
    ensures var b' := AfterPatch(b, w, id, loaded, r, catalog, faults, revives);
            && OnlyRow(b, b', id)
            && if b.rows[id].deleted && !revives then b' == b
               else
                 var row, asked := b'.rows[id], Asked(Parse(r.raw, w.parse).value, field);
                 && row.owner == loaded.owner && row.status == loaded.status && !row.deleted
                 && Get(row.fields, field) == if asked.defined then asked.value else Get(loaded.fields, field)
  {
    ApplyByField(loaded.fields, Parse(r.raw, w.parse).value, field);
  }

  // A refused request changes nothing.
  lemma RefusedChangesNothing(b: Bundles, w: World, id: BundleId, loaded: Row, r: Request, catalog: Catalog,
                              faults: Faults, revives: bool)
    ensures !Patches(w, loaded, r, catalog, faults) ==> AfterPatch(b, w, id, loaded, r, catalog, faults, revives) == b
    ensures !Submits(w, r, catalog, faults) ==> AfterSubmit(b, w, r, catalog, faults) == b
  {
  }

  // The request names some reference to be set.
  predicate NamesReference(p: Parsed) {
    exists field :: field != DescriptionField && Asked(p, field).defined && Asked(p, field).value.Some?
  }

  // Exactly when a PATCH is accepted: it comes from the owner and in time, every identifier can be read, two
  // different fields stay set, it sets some reference and owns all it sets, and its query and write both work.
  lemma PatchAccepted(w: World, loaded: Row, r: Request, catalog: Catalog, faults: Faults)
    ensures Patches(w, loaded, r, catalog, faults) <==>
              && loaded.owner == r.requester && r.time <= w.deadline(r.requester.task) && Parse(r.raw, w.parse).Ok?
              && var p := Parse(r.raw, w.parse).value;
                 && (exists a, b ::
                       a != b && Get(Apply(loaded.fields, p), a).Some? && Get(Apply(loaded.fields, p), b).Some?)
                 && NamesReference(p) && AllOwned(NewRefs(p), loaded.owner, catalog)
                 && !faults.query && !faults.write
  {
    if Parse(r.raw, w.parse).Ok? {
      var p := Parse(r.raw, w.parse).value;
      TwoFields(Apply(loaded.fields, p));
      ReferenceNamed(p);
    }
  }

  lemma ReferenceNamed(p: Parsed)
    ensures NamesReference(p) <==> SetsReference(p)
  {
    if SetsReference(p) {
      var field := if p.pov.Sets() then PovField else if p.patch.Sets() then PatchField
                   else if p.submittedSarif.Sets() then SubmittedSarifField
                   else if p.broadcastSarif.Sets() then BroadcastSarifField else FreeformField;
      assert Asked(p, field).defined && Asked(p, field).value.Some?;
    }
  }

  // Exactly when a POST is: every identifier can be read, two different fields are set, all references are owned,
  // and its query and write both work. A deadline does not refuse it.
  lemma SubmitAccepted(w: World, r: Request, catalog: Catalog, faults: Faults)
    requires Parse(r.raw, w.parse).Ok?
    ensures var p := Parse(r.raw, w.parse).value;
            Submits(w, r, catalog, faults) <==>
              && (exists a, b :: a != b && Get(Apply(NO_FIELDS, p), a).Some? && Get(Apply(NO_FIELDS, p), b).Some?)
              && AllOwned(NewRefs(p), r.requester, catalog) && !faults.query && !faults.write
  {
    var p := Parse(r.raw, w.parse).value;
    TwoFields(Apply(NO_FIELDS, p));
    RawCountIsPresent(r.raw, w.parse);
    if RawCount(r.raw) >= 2 {
      NewBundleSetsReference(r.raw, w.parse);
    }
  }
}
