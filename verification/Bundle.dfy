// Bundles: six optional fields, changed by three-state PATCH requests.
module Bundle {
  import opened Types

  type Uuid = nat

  // Go's Optional: whether the field was in the payload, and its value or null.
  datatype Optional<T> = Optional(defined: bool, value: Option<T>)
  {
    predicate Sets() { defined && value.Some? }

    // Only what is defined counts; an undefined field maps to the empty Optional.
    function Map<U>(f: Option<T> -> Result<Option<U>, string>): Result<Optional<U>, string> {
      if !defined then Ok(Optional(false, None))
      else
        match f(value)
        case Error(e) => Error(e)
        case Ok(v) => Ok(Optional(true, v))
    }

    // The stored field after a request: the new value or null if defined, else what was there.
    function Over(stored: Option<T>): Option<T> {
      if defined then value else stored
    }
  }

  datatype Submission = Submission(
    pov: Optional<string>, patch: Optional<string>, submittedSarif: Optional<string>,
    broadcastSarif: Optional<string>, description: Optional<string>, freeform: Optional<string>)

  datatype Parsed = Parsed(
    pov: Optional<Uuid>, patch: Optional<Uuid>, submittedSarif: Optional<Uuid>,
    broadcastSarif: Optional<Uuid>, description: Optional<string>, freeform: Optional<Uuid>)

  datatype Fields = Fields(
    pov: Option<Uuid>, patch: Option<Uuid>, submittedSarif: Option<Uuid>,
    broadcastSarif: Option<Uuid>, description: Option<string>, freeform: Option<Uuid>)

  const NO_FIELDS: Fields := Fields(None, None, None, None, None, None)

  function Apply(stored: Fields, p: Parsed): Fields {
    Fields(p.pov.Over(stored.pov), p.patch.Over(stored.patch), p.submittedSarif.Over(stored.submittedSarif),
           p.broadcastSarif.Over(stored.broadcastSarif), p.description.Over(stored.description),
           p.freeform.Over(stored.freeform))
  }

  datatype Field = PovField | PatchField | SubmittedSarifField | BroadcastSarifField | DescriptionField | FreeformField

  datatype Value = Ref(uuid: Uuid) | Text(text: string)

  function RefOf(id: Option<Uuid>): Option<Value> { if id.Some? then Some(Ref(id.value)) else None }
  function TextOf(text: Option<string>): Option<Value> { if text.Some? then Some(Text(text.value)) else None }

  function Get(f: Fields, field: Field): Option<Value> {
    match field
    case PovField => RefOf(f.pov)
    case PatchField => RefOf(f.patch)
    case SubmittedSarifField => RefOf(f.submittedSarif)
    case BroadcastSarifField => RefOf(f.broadcastSarif)
    case DescriptionField => TextOf(f.description)
    case FreeformField => RefOf(f.freeform)
  }

  // What a request says about a field: nothing, null, or a value.
  function Asked(p: Parsed, field: Field): Optional<Value> {
    match field
    case PovField => Optional(p.pov.defined, RefOf(p.pov.value))
    case PatchField => Optional(p.patch.defined, RefOf(p.patch.value))
    case SubmittedSarifField => Optional(p.submittedSarif.defined, RefOf(p.submittedSarif.value))
    case BroadcastSarifField => Optional(p.broadcastSarif.defined, RefOf(p.broadcastSarif.value))
    case DescriptionField => Optional(p.description.defined, TextOf(p.description.value))
    case FreeformField => Optional(p.freeform.defined, RefOf(p.freeform.value))
  }

  lemma ApplyByField(stored: Fields, p: Parsed, field: Field)
    ensures Get(Apply(stored, p), field) == Asked(p, field).Over(Get(stored, field))
  {
  }

  // How many fields hold something.
  function NonNull(f: Fields): nat {
    Bit(f.pov.Some?) + Bit(f.patch.Some?) + Bit(f.submittedSarif.Some?) +
    Bit(f.broadcastSarif.Some?) + Bit(f.description.Some?) + Bit(f.freeform.Some?)
  }

  // A bundle has two fields set exactly when two different fields hold something.
  lemma TwoFields(f: Fields)
    ensures NonNull(f) >= 2 <==> exists a, b :: a != b && Get(f, a).Some? && Get(f, b).Some?
  {
    if NonNull(f) >= 2 {
      var filled := SetFields(f);
      assert |filled| >= 2 && filled[0] != filled[1];
      assert Get(f, filled[0]).Some? && Get(f, filled[1]).Some?;
    }
  }

  function OneIf(b: bool, field: Field): seq<Field> { if b then [field] else [] }

  function SetFields(f: Fields): seq<Field> {
    OneIf(f.pov.Some?, PovField) + OneIf(f.patch.Some?, PatchField) + OneIf(f.submittedSarif.Some?, SubmittedSarifField)
    + OneIf(f.broadcastSarif.Some?, BroadcastSarifField) + OneIf(f.description.Some?, DescriptionField)
    + OneIf(f.freeform.Some?, FreeformField)
  }

  /* ------------------------------------------------------------- requests */

  // uuid.Parse on a given text; a null stays null.
  function ParseRef(parse: string -> Option<Uuid>): Option<string> -> Result<Option<Uuid>, string> {
    (v: Option<string>) =>
      if v.None? then Ok(None)
      else if parse(v.value).None? then Error("failed to parse uuid")
      else Ok(parse(v.value))
  }

  function Parse(raw: Submission, parse: string -> Option<Uuid>): Result<Parsed, string> {
    var pov := raw.pov.Map(ParseRef(parse));
    var patch := raw.patch.Map(ParseRef(parse));
    var submittedSarif := raw.submittedSarif.Map(ParseRef(parse));
    var broadcastSarif := raw.broadcastSarif.Map(ParseRef(parse));
    var freeform := raw.freeform.Map(ParseRef(parse));
    if pov.Error? then Error(pov.error)
    else if patch.Error? then Error(patch.error)
    else if submittedSarif.Error? then Error(submittedSarif.error)
    else if broadcastSarif.Error? then Error(broadcastSarif.error)
    else if freeform.Error? then Error(freeform.error)
    else Ok(Parsed(pov.value, patch.value, submittedSarif.value, broadcastSarif.value, raw.description, freeform.value))
  }

  predicate Readable(text: Optional<string>, parse: string -> Option<Uuid>) {
    text.Sets() ==> parse(text.value.value).Some?
  }

  // The reference a readable text stands for; nothing and null stay what they are.
  function ReadAs(text: Optional<string>, parse: string -> Option<Uuid>): Optional<Uuid> {
    Optional(text.defined, if text.Sets() then parse(text.value.value) else None)
  }

  // Parsing fails exactly on an identifier that is set and unreadable, and reads every field for itself.
  lemma ParseMeaning(raw: Submission, parse: string -> Option<Uuid>)
    ensures Parse(raw, parse).Ok? <==>
              && Readable(raw.pov, parse) && Readable(raw.patch, parse) && Readable(raw.submittedSarif, parse)
              && Readable(raw.broadcastSarif, parse) && Readable(raw.freeform, parse)
    ensures Parse(raw, parse).Ok? ==>
              Parse(raw, parse).value ==
              Parsed(ReadAs(raw.pov, parse), ReadAs(raw.patch, parse), ReadAs(raw.submittedSarif, parse),
                     ReadAs(raw.broadcastSarif, parse), raw.description, ReadAs(raw.freeform, parse))
  {
    MapMeaning(raw.pov, parse);
    MapMeaning(raw.patch, parse);
    MapMeaning(raw.submittedSarif, parse);
    MapMeaning(raw.broadcastSarif, parse);
    MapMeaning(raw.freeform, parse);
  }

  lemma MapMeaning(text: Optional<string>, parse: string -> Option<Uuid>)
    ensures text.Map(ParseRef(parse)).Ok? <==> Readable(text, parse)
    ensures text.Map(ParseRef(parse)).Ok? ==> text.Map(ParseRef(parse)).value == ReadAs(text, parse)
  {
  }

  function RawCount(raw: Submission): nat {
    Bit(raw.pov.Sets()) + Bit(raw.patch.Sets()) + Bit(raw.submittedSarif.Sets()) +
    Bit(raw.broadcastSarif.Sets()) + Bit(raw.description.Sets()) + Bit(raw.freeform.Sets())
  }

  method ValidateFieldCount(raw: Submission) returns (ok: bool)
    ensures ok <==> RawCount(raw) >= 2
  {
    var countSet := 0;
    if raw.pov.defined && raw.pov.value.Some? { countSet := countSet + 1; }
    if raw.broadcastSarif.defined && raw.broadcastSarif.value.Some? { countSet := countSet + 1; }
    if raw.description.defined && raw.description.value.Some? { countSet := countSet + 1; }
    if raw.patch.defined && raw.patch.value.Some? { countSet := countSet + 1; }
    if raw.submittedSarif.defined && raw.submittedSarif.value.Some? { countSet := countSet + 1; }
    if raw.freeform.defined && raw.freeform.value.Some? { countSet := countSet + 1; }
    ok := countSet >= 2;
  }

  // The count of a raw request is the number of fields its parsed form gives an empty bundle.
  lemma RawCountIsPresent(raw: Submission, parse: string -> Option<Uuid>)
    requires Parse(raw, parse).Ok?
    ensures RawCount(raw) == NonNull(Apply(NO_FIELDS, Parse(raw, parse).value))
  {
    ParseMeaning(raw, parse);
  }

  /* ------------------------------------------------------- the relations */

  datatype Owner = Owner(submitter: Uuid, task: Uuid)

  datatype Table = PovTable | PatchTable | BroadcastTable | SarifTable | FreeformTable

  // The submissions and broadcasts that exist, and whose they are.
  type Catalog = map<(Table, Uuid), Owner>

  // The named values of the ownership query.
  datatype Parameter = PovId | PatchId | BroadcastSarifId | SubmittedSarifId | FreeformId | SubmitterId | TaskId

  // One EXISTS clause: the table, and the named value its row must have as identifier.
  datatype Clause = Clause(table: Table, parameter: Parameter)

  // Broadcast SARIFs belong to a task only, everything else also to its submitter.
  predicate ClauseHolds(c: Clause, values: map<Parameter, Uuid>, catalog: Catalog)
    requires c.parameter in values && SubmitterId in values && TaskId in values
  {
    var row := (c.table, values[c.parameter]);
    && row in catalog && catalog[row].task == values[TaskId]
    && (c.table.BroadcastTable? || catalog[row].submitter == values[SubmitterId])
  }

  // The reference exists and is owned by the bundle's task and submitter.
  predicate Owned(id: Option<Uuid>, table: Table, owner: Owner, catalog: Catalog) {
    id.Some? ==>
      && (table, id.value) in catalog && catalog[(table, id.value)].task == owner.task
      && (table.BroadcastTable? || catalog[(table, id.value)].submitter == owner.submitter)
  }

  predicate AllOwned(f: Fields, owner: Owner, catalog: Catalog) {
    && Owned(f.pov, PovTable, owner, catalog) && Owned(f.patch, PatchTable, owner, catalog)
    && Owned(f.broadcastSarif, BroadcastTable, owner, catalog)
    && Owned(f.submittedSarif, SarifTable, owner, catalog) && Owned(f.freeform, FreeformTable, owner, catalog)
  }

  // The references a request sets, on their own.
  function NewRefs(p: Parsed): Fields {
    Apply(NO_FIELDS, p).(description := None)
  }

  predicate SetsReference(p: Parsed) {
    p.pov.Sets() || p.patch.Sets() || p.submittedSarif.Sets() || p.broadcastSarif.Sets() || p.freeform.Sets()
  }

  // A request is accepted by the check exactly when it sets some reference and owns all it sets.
  // With no reference the query selects nothing, and the request is refused with an error.
  predicate RelationsValid(p: Parsed, owner: Owner, catalog: Catalog) {
    SetsReference(p) && AllOwned(NewRefs(p), owner, catalog)
  }

  function ClausesOf(asked: Optional<Uuid>, table: Table, parameter: Parameter): seq<Clause> {
    if asked.Sets() then [Clause(table, parameter)] else []
  }

  function WithValue(asked: Optional<Uuid>, parameter: Parameter, values: map<Parameter, Uuid>): map<Parameter, Uuid> {
    if asked.Sets() then values[parameter := asked.value.value] else values
  }

  // The query's clauses and its named values.
  function Clauses(p: Parsed): seq<Clause> {
    [] + ClausesOf(p.pov, PovTable, PovId) + ClausesOf(p.patch, PatchTable, PatchId)
    + ClausesOf(p.broadcastSarif, BroadcastTable, BroadcastSarifId)
    + ClausesOf(p.submittedSarif, SarifTable, SubmittedSarifId)
    + ClausesOf(p.freeform, FreeformTable, FreeformId)
  }

  function Values(p: Parsed, owner: Owner): (values: map<Parameter, Uuid>)
    ensures SubmitterId in values && values[SubmitterId] == owner.submitter
    ensures TaskId in values && values[TaskId] == owner.task
    ensures p.pov.Sets() ==> PovId in values && values[PovId] == p.pov.value.value
    ensures p.patch.Sets() ==> PatchId in values && values[PatchId] == p.patch.value.value
    ensures p.broadcastSarif.Sets() ==>
              BroadcastSarifId in values && values[BroadcastSarifId] == p.broadcastSarif.value.value
    ensures p.submittedSarif.Sets() ==>
              SubmittedSarifId in values && values[SubmittedSarifId] == p.submittedSarif.value.value
    ensures p.freeform.Sets() ==>
              FreeformId in values && values[FreeformId] == p.freeform.value.value
  {
    var v1 := WithValue(p.pov, PovId, map[]);
    var v2 := WithValue(p.patch, PatchId, v1);
    var v3 := WithValue(p.broadcastSarif, BroadcastSarifId, v2);
    var v4 := WithValue(p.submittedSarif, SubmittedSarifId, v3);
    var v5 := WithValue(p.freeform, FreeformId, v4);
    v5[TaskId := owner.task][SubmitterId := owner.submitter]
  }

  predicate AllHold(clauses: seq<Clause>, values: map<Parameter, Uuid>, catalog: Catalog)
    requires SubmitterId in values && TaskId in values
  {
    forall c :: c in clauses ==> c.parameter in values && ClauseHolds(c, values, catalog)
  }

  lemma ClauseMeaning(asked: Optional<Uuid>, table: Table, parameter: Parameter,
                      values: map<Parameter, Uuid>, owner: Owner, catalog: Catalog)
    requires SubmitterId in values && values[SubmitterId] == owner.submitter
    requires TaskId in values && values[TaskId] == owner.task
    requires asked.Sets() ==> parameter in values && values[parameter] == asked.value.value
    ensures AllHold(ClausesOf(asked, table, parameter), values, catalog)
            <==> Owned(asked.Over(None), table, owner, catalog)
  {
    if asked.Sets() {
      assert Clause(table, parameter) in ClausesOf(asked, table, parameter);
    }
  }

  lemma AllHoldSplit(left: seq<Clause>, right: seq<Clause>, values: map<Parameter, Uuid>, catalog: Catalog)
    requires SubmitterId in values && TaskId in values
    ensures AllHold(left + right, values, catalog)
            <==> AllHold(left, values, catalog) && AllHold(right, values, catalog)
  {
    assert forall c :: c in left + right <==> c in left || c in right;
  }

  // The query holds exactly when every reference being set is owned.
  lemma QueryMeaning(p: Parsed, owner: Owner, catalog: Catalog)
    ensures Clauses(p) == [] <==> !SetsReference(p)
    ensures forall c :: c in Clauses(p) ==> c.parameter in Values(p, owner)
    ensures AllHold(Clauses(p), Values(p, owner), catalog) <==> AllOwned(NewRefs(p), owner, catalog)
  {
    var c1 := ClausesOf(p.pov, PovTable, PovId);
    var c2 := ClausesOf(p.patch, PatchTable, PatchId);
    var c3 := ClausesOf(p.broadcastSarif, BroadcastTable, BroadcastSarifId);
    var c4 := ClausesOf(p.submittedSarif, SarifTable, SubmittedSarifId);
    var c5 := ClausesOf(p.freeform, FreeformTable, FreeformId);
    var values := Values(p, owner);
    AllHoldSplit([], c1, values, catalog);
    AllHoldSplit([] + c1, c2, values, catalog);
    AllHoldSplit([] + c1 + c2, c3, values, catalog);
    AllHoldSplit([] + c1 + c2 + c3, c4, values, catalog);
    AllHoldSplit([] + c1 + c2 + c3 + c4, c5, values, catalog);
    ClauseMeaning(p.pov, PovTable, PovId, values, owner, catalog);
    ClauseMeaning(p.patch, PatchTable, PatchId, values, owner, catalog);
    ClauseMeaning(p.broadcastSarif, BroadcastTable, BroadcastSarifId, values, owner, catalog);
    ClauseMeaning(p.submittedSarif, SarifTable, SubmittedSarifId, values, owner, catalog);
    ClauseMeaning(p.freeform, FreeformTable, FreeformId, values, owner, catalog);
  }

  // A bundle object as a request holds it in memory.
  class Loaded {
    const owner: Owner
    var status: Status
    var fields: Fields

    constructor (owner: Owner, status: Status, fields: Fields)
      ensures this.owner == owner && this.status == status && this.fields == fields
    {
      this.owner, this.status, this.fields := owner, status, fields;
    }

    method CountNotNull(p: Parsed) returns (count: nat)
      ensures count == NonNull(Apply(fields, p))
    {
      count := 0;
      if (fields.pov.Some? && !p.pov.defined) || (p.pov.defined && p.pov.value.Some?) {
        count := count + 1;
      }
      assert count == Bit(p.pov.Over(fields.pov).Some?);
      ghost var was := count;
      if (fields.patch.Some? && !p.patch.defined) || (p.patch.defined && p.patch.value.Some?) {
        count := count + 1;
      }
      assert count == was + Bit(p.patch.Over(fields.patch).Some?);
      was := count;
      if (fields.broadcastSarif.Some? && !p.broadcastSarif.defined)
         || (p.broadcastSarif.defined && p.broadcastSarif.value.Some?) {
        count := count + 1;
      }
      assert count == was + Bit(p.broadcastSarif.Over(fields.broadcastSarif).Some?);
      was := count;
      if (fields.submittedSarif.Some? && !p.submittedSarif.defined)
         || (p.submittedSarif.defined && p.submittedSarif.value.Some?) {
        count := count + 1;
      }
      assert count == was + Bit(p.submittedSarif.Over(fields.submittedSarif).Some?);
      was := count;
      if (fields.description.Some? && !p.description.defined) || (p.description.defined && p.description.value.Some?) {
        count := count + 1;
      }
      assert count == was + Bit(p.description.Over(fields.description).Some?);
      was := count;
      if (fields.freeform.Some? && !p.freeform.defined) || (p.freeform.defined && p.freeform.value.Some?) {
        count := count + 1;
      }
      assert count == was + Bit(p.freeform.Over(fields.freeform).Some?);
    }

    // Changes the object whether or not the check then succeeds.
    method CheckAndSetRelations(p: Parsed, catalog: Catalog, queryFails: bool) returns (r: Result<bool, string>)
      modifies this`fields
      ensures fields == Apply(old(fields), p)
      ensures r == Ok(true) <==> !queryFails && RelationsValid(p, owner, catalog)
      ensures r.Error? <==> queryFails || !SetsReference(p)
    {
      var clauses, values := [], map[];
      var id;
      clauses, values, id := Take(p.pov, PovTable, PovId, clauses, values, fields.pov);
      fields := fields.(pov := id);
      clauses, values, id := Take(p.patch, PatchTable, PatchId, clauses, values, fields.patch);
      fields := fields.(patch := id);
      clauses, values, id := Take(p.broadcastSarif, BroadcastTable, BroadcastSarifId, clauses, values,
                                  fields.broadcastSarif);
      fields := fields.(broadcastSarif := id);
      clauses, values, id := Take(p.submittedSarif, SarifTable, SubmittedSarifId, clauses, values,
                                  fields.submittedSarif);
      fields := fields.(submittedSarif := id);
      if p.description.defined {
        fields := fields.(description := p.description.value);
      }
      clauses, values, id := Take(p.freeform, FreeformTable, FreeformId, clauses, values, fields.freeform);
      fields := fields.(freeform := id);
      values := values[TaskId := owner.task][SubmitterId := owner.submitter];
      assert clauses == Clauses(p);
      assert values == Values(p, owner);
      QueryMeaning(p, owner, catalog);
      r := Query(clauses, values, catalog, queryFails);
    }

    // Adds the EXISTS clause and the named value of a reference that is being set, and sets or clears the field.
    static method Take(asked: Optional<Uuid>, table: Table, parameter: Parameter,
                       clauses: seq<Clause>, values: map<Parameter, Uuid>, stored: Option<Uuid>)
      returns (extended: seq<Clause>, bound: map<Parameter, Uuid>, id: Option<Uuid>)
      ensures extended == clauses + ClausesOf(asked, table, parameter)
      ensures bound == WithValue(asked, parameter, values)
      ensures id == asked.Over(stored)
    {
      extended, bound, id := clauses, values, stored;
      if asked.defined {
        if asked.value.Some? {
          extended := extended + [Clause(table, parameter)];
          bound := bound[parameter := asked.value.value];
        }
        id := asked.value;
      }
    }

    static method Query(clauses: seq<Clause>, values: map<Parameter, Uuid>, catalog: Catalog, queryFails: bool)
      returns (r: Result<bool, string>)
      requires SubmitterId in values && TaskId in values
      requires forall c :: c in clauses ==> c.parameter in values
      ensures r.Error? <==> queryFails || clauses == []
      ensures r == Ok(true) <==> !queryFails && clauses != [] && AllHold(clauses, values, catalog)
    {
      if queryFails || clauses == [] {
        return Error("query failed");
      }
      var val := true;
      var i := 0;
      while i < |clauses|
        invariant 0 <= i <= |clauses|
        invariant val <==> forall j :: 0 <= j < i ==> ClauseHolds(clauses[j], values, catalog)
      {
        val := val && ClauseHolds(clauses[i], values, catalog);
        i := i + 1;
      }
      r := Ok(val);
    }
  }

  // A request with two fields set always sets a reference, so a new bundle never hits the empty query.
  lemma NewBundleSetsReference(raw: Submission, parse: string -> Option<Uuid>)
    requires Parse(raw, parse).Ok? && RawCount(raw) >= 2
    ensures SetsReference(Parse(raw, parse).value)
  {
    ParseMeaning(raw, parse);
  }
}
